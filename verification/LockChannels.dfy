/**
 The channels of waiting callers (the map `grants` of internal/mutex/mutex.go): which steps store and delete
 one, and which of them are never deleted.
 */
module LockChannels {
  import opened Options
  import opened LockEngine
  import opened LockProtocol

  function Channels(s: State, n: Node): set<Req>
    requires n in s.engines
  {
    s.engines[n].grants
  }

  /** A remote caller stores its channel before it asks, a local one after it has joined the queue. */
  predicate Stores(c: Cluster, step: Step, n: Node, r: Req) {
    || (step == RemoteRegister(r) && n == r.owner)
    || (step == LocalRegister(r) && n == c.master)
  }

  /**
   A remote caller deletes its channel when the request cannot be sent or no grant comes in time; a cancelled
   one and a local one do not.  The arbiter deletes the channel of the caller it hands the lock to.
   */
  predicate Deletes(c: Cluster, s: State, step: Step, n: Node, r: Req)
    requires c.master in s.engines
  {
    var e := Arbiter(c, s);
    || ((step == RemoteSendFails(r) || step == Timeout(r)) && n == r.owner != c.master)
    || (Releasing(step) && e.holder == Some(step.req) && n == c.master
        && e.queue != [] && e.queue[0].req == r)
  }

  ghost predicate Changes(c: Cluster, s: State, step: Step, n: Node, r: Req)
    requires WellFormed(c, s) && Enabled(c, s, step) && n in c.nodes
  {
    && WellFormed(c, Do(c, s, step))
    && (r in Channels(Do(c, s, step), n) <==>
      Stores(c, step, n, r) || (r in Channels(s, n) && !Deletes(c, s, step, n, r)))
  }

  predicate Releasing(step: Step) { step.LocalRelease? || step.DeliverRelease? }

  predicate Arriving(step: Step) { step.LocalAcquire? || step.DeliverRequest? }

  predicate Registering(step: Step) {
    step.LocalRegister? || step.RemoteRegister? || step.RemoteSendFails? || step.Timeout?
  }

  lemma HandOverChanges(c: Cluster, s: State, q: Req, n: Node, r: Req)
    requires WellFormed(c, s) && n in c.nodes
    ensures var (s', e) := (AfterHandOver(c, s, q), Arbiter(c, s));
      r in Channels(s', n) <==>
        r in Channels(s, n) && !(e.holder == Some(q) && n == c.master && e.queue != [] && e.queue[0].req == r)
  {
  }

  lemma ReleaseChanges(c: Cluster, s: State, step: Step, n: Node, r: Req)
    requires WellFormed(c, s) && Enabled(c, s, step) && n in c.nodes && Releasing(step)
    ensures Changes(c, s, step, n, r)
  {
    if step.LocalRelease? {
      HandOverChanges(c, s.(phase := s.phase[step.req := Done]), step.req, n, r);
    } else {
      HandOverChanges(c, s.(net := s.net - multiset{Release(step.req)}), step.req, n, r);
    }
  }

  lemma ArrivalChanges(c: Cluster, s: State, step: Step, n: Node, r: Req)
    requires WellFormed(c, s) && Enabled(c, s, step) && n in c.nodes && Arriving(step)
    ensures Changes(c, s, step, n, r)
  {
  }

  lemma RegisterChanges(c: Cluster, s: State, step: Step, n: Node, r: Req)
    requires WellFormed(c, s) && Enabled(c, s, step) && n in c.nodes && Registering(step)
    ensures Changes(c, s, step, n, r)
  {
  }

  lemma RestChanges(c: Cluster, s: State, step: Step, n: Node, r: Req)
    requires WellFormed(c, s) && Enabled(c, s, step) && n in c.nodes
    requires !Releasing(step) && !Arriving(step) && !Registering(step)
    ensures Changes(c, s, step, n, r)
  {
    match step
    case RemoteSend(_) =>
    case TakeToken(_) =>
    case Cancel(_) =>
    case RemoteRelease(_) =>
    case LookupGrant(_, _) =>
    case SendToken(_) =>
    case DropDeny(_, _) =>
    case Lose(_) =>
  }

  /** No other step stores or deletes a channel anywhere. */
  lemma ChannelStep(c: Cluster, s: State, step: Step, n: Node, r: Req)
    requires WellFormed(c, s) && Enabled(c, s, step) && n in c.nodes
    ensures WellFormed(c, Do(c, s, step))
    ensures r in Channels(Do(c, s, step), n) <==>
      Stores(c, step, n, r) || (r in Channels(s, n) && !Deletes(c, s, step, n, r))
  {
    if Releasing(step) {
      ReleaseChanges(c, s, step, n, r);
    } else if Arriving(step) {
      ArrivalChanges(c, s, step, n, r);
    } else if Registering(step) {
      RegisterChanges(c, s, step, n, r);
    } else {
      RestChanges(c, s, step, n, r);
    }
  }

  predicate AskedOnce(p: Phase) { p == Unsent || p == Waiting || p == Holding || p == Done }

  /** A remote caller's channel is stored from its start to its end, and stays unless it gives up. */
  ghost predicate Kept(c: Cluster, s: State, r: Req) {
    r.owner in c.nodes && r.owner in s.engines && r.owner != c.master ==>
      (AskedOnce(Ph(s, r)) ==> r in Channels(s, r.owner)) && (Ph(s, r) == Fresh ==> r !in Channels(s, r.owner))
  }

  /** What a step does to the phase of a remote caller. */
  ghost predicate PhaseStep(s: State, s': State, step: Step, r: Req) {
    var p, p' := Ph(s, r), Ph(s', r);
    && (AskedOnce(p') ==> AskedOnce(p) || step == RemoteRegister(r))
    && (p' == Fresh ==> p == Fresh && step != RemoteRegister(r))
    && (step == Timeout(r) || step == RemoteSendFails(r) ==> p' == GaveUp)
  }

  predicate ByNetwork(step: Step) {
    step.DeliverRequest? || step.DeliverRelease? || step.LookupGrant? || step.SendToken? || step.DropDeny? || step.Lose?
  }

  predicate ByLocal(step: Step) { step.LocalAcquire? || step.LocalRegister? || step.LocalRelease? }

  lemma DeliveryPhase(c: Cluster, s: State, step: Step)
    requires WellFormed(c, s) && Enabled(c, s, step) && (step.DeliverRequest? || step.DeliverRelease?)
    ensures Do(c, s, step).phase == s.phase
  {
    match step
    case DeliverRequest(_, _) =>
    case DeliverRelease(_) =>
  }

  lemma GrantPhase(c: Cluster, s: State, step: Step)
    requires WellFormed(c, s) && Enabled(c, s, step) && (step.LookupGrant? || step.SendToken?)
    ensures Do(c, s, step).phase == s.phase
  {
    match step
    case LookupGrant(_, _) =>
    case SendToken(_) =>
  }

  lemma LossPhase(c: Cluster, s: State, step: Step)
    requires WellFormed(c, s) && Enabled(c, s, step) && (step.DropDeny? || step.Lose?)
    ensures Do(c, s, step).phase == s.phase
  {
    match step
    case DropDeny(_, _) =>
    case Lose(_) =>
  }

  lemma LocalPhase(c: Cluster, s: State, step: Step, r: Req)
    requires WellFormed(c, s) && Enabled(c, s, step) && ByLocal(step) && r != step.req
    ensures Ph(Do(c, s, step), r) == Ph(s, r)
  {
  }

  lemma CallerPhase(c: Cluster, s: State, step: Step, r: Req)
    requires WellFormed(c, s) && Enabled(c, s, step) && !ByNetwork(step) && !ByLocal(step)
    ensures PhaseStep(s, Do(c, s, step), step, r)
  {
    match step
    case RemoteRegister(_) =>
    case RemoteSend(_) =>
    case RemoteSendFails(_) =>
    case TakeToken(_) =>
    case Timeout(_) =>
    case Cancel(_) =>
    case RemoteRelease(_) =>
  }

  lemma RemotePhase(c: Cluster, s: State, step: Step, r: Req)
    requires WellFormed(c, s) && Enabled(c, s, step) && r.owner != c.master && Ph(s, r) != Joining
    ensures PhaseStep(s, Do(c, s, step), step, r)
  {
    if step.DeliverRequest? || step.DeliverRelease? {
      DeliveryPhase(c, s, step);
    } else if step.LookupGrant? || step.SendToken? {
      GrantPhase(c, s, step);
    } else if step.DropDeny? || step.Lose? {
      LossPhase(c, s, step);
    } else if ByLocal(step) {
      LocalPhase(c, s, step, r);
    } else {
      CallerPhase(c, s, step, r);
    }
  }

  lemma FactsKeep(c: Cluster, s: State, s': State, step: Step, r: Req)
    requires WellFormed(c, s) && WellFormed(c, s') && Kept(c, s, r) && r.owner in c.nodes && r.owner != c.master
    requires r in Channels(s', r.owner) <==>
      Stores(c, step, r.owner, r) || (r in Channels(s, r.owner) && !Deletes(c, s, step, r.owner, r))
    requires PhaseStep(s, s', step, r)
    ensures Kept(c, s', r)
  {
  }

  lemma StepKeeps(c: Cluster, s: State, step: Step, r: Req)
    requires WellFormed(c, s) && Enabled(c, s, step) && Kept(c, s, r)
    requires Ph(s, r) == Joining ==> r.owner == c.master
    ensures Kept(c, Do(c, s, step), r)
  {
    if r.owner in c.nodes && r.owner != c.master {
      ChannelStep(c, s, step, r.owner, r);
      RemotePhase(c, s, step, r);
      FactsKeep(c, s, Do(c, s, step), step, r);
    }
  }

  lemma NextKeeps(c: Cluster, s: State, s': State, r: Req)
    requires Inv(c, s) && Next(c, s, s') && Kept(c, s, r)
    ensures Kept(c, s', r)
  {
    var step :| Enabled(c, s, step) && s' == Do(c, s, step);
    assert Ok(c, s, r);
    StepKeeps(c, s, step, r);
  }

  lemma {:induction false} ReachableKept(c: Cluster, run: seq<State>, k: nat, r: Req)
    requires Behaviour(c, run) && k < |run|
    ensures Kept(c, run[k], r)
  {
    if k > 0 {
      ReachableKept(c, run, k - 1, r);
      assert StepAt(c, run, k - 1);
      ReachableInv(c, run, k - 1);
      NextKeeps(c, run[k - 1], run[k], r);
    }
  }

  /**
   Every lock that a remote caller has acquired leaves its channel in the map of its node for good: after `done`
   such acquisitions node `n` holds at least so many channels.
   */
  lemma ChannelsPileUp(c: Cluster, run: seq<State>, k: nat, n: Node, done: set<Req>)
    requires Behaviour(c, run) && k < |run| && n in c.nodes && n != c.master && n in run[k].engines
    requires forall r :: r in done ==> r.owner == n && Ph(run[k], r) == Done
    ensures done <= Channels(run[k], n) && |done| <= |Channels(run[k], n)|
  {
    forall r | r in done
      ensures r in Channels(run[k], n)
    {
      ReachableKept(c, run, k, r);
    }
    Smaller(done, Channels(run[k], n));
  }

  lemma {:induction false} Smaller(a: set<Req>, b: set<Req>)
    requires a <= b
    ensures |a| <= |b|
  {
    if a != {} {
      var r :| r in a;
      Smaller(a - {r}, b - {r});
    }
  }
}
