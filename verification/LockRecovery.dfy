/**
 The states of the lock protocol from which somebody can still acquire the lock are exactly those that are
 not doomed: from every other one a continuation is constructed in which somebody does.
 */
module LockRecovery {
  import opened Options
  import opened LockEngine
  import opened LockProtocol
  import opened LockLiveness

  /** What ends the turn of `r` is its caller's release, still to be made or already on its way. */
  predicate Ending(s: State, r: Req) { Ph(s, r) == Holding || s.net[Release(r)] > 0 }

  /** The lock is stuck, or will be as soon as the current turn ends. */
  predicate Doomed(c: Cluster, s: State)
    requires c.master in s.engines
  {
    var e := Arbiter(c, s);
    e.holder.Some? &&
      (Lost(s, e.holder.value) || (Ending(s, e.holder.value) && e.queue != [] && Ph(s, e.queue[0].req) == GaveUp))
  }

  // ---- Doomed for good -----------------------------------------------------------------------------

  lemma ArrivalKeepsHead(c: Cluster, s: State, step: Step)
    requires WellFormed(c, s) && Enabled(c, s, step) && Arrives(step)
    requires Arbiter(c, s).holder.Some? && Arbiter(c, s).queue != []
    ensures c.master in Do(c, s, step).engines && Arbiter(c, Do(c, s, step)).queue != []
    ensures Arbiter(c, Do(c, s, step)).queue[0] == Arbiter(c, s).queue[0]
  {
  }

  lemma QueueUnchanged(c: Cluster, s: State, step: Step)
    requires WellFormed(c, s) && Enabled(c, s, step) && !Arrives(step) && !EndsTurn(step)
    ensures c.master in Do(c, s, step).engines && Arbiter(c, Do(c, s, step)).queue == Arbiter(c, s).queue
  {
  }

  lemma HeadStays(c: Cluster, s: State, step: Step)
    requires WellFormed(c, s) && Enabled(c, s, step) && !EndsTurn(step) && Arbiter(c, s).queue != []
    requires Arbiter(c, s).holder.Some?
    ensures c.master in Do(c, s, step).engines && Arbiter(c, Do(c, s, step)).queue != []
    ensures Arbiter(c, Do(c, s, step)).queue[0] == Arbiter(c, s).queue[0]
  {
    if Arrives(step) {
      ArrivalKeepsHead(c, s, step);
    } else {
      QueueUnchanged(c, s, step);
    }
  }

  lemma ReleaseInFlight(c: Cluster, s: State, step: Step, r: Req)
    requires WellFormed(c, s) && Enabled(c, s, step) && !EndsTurn(step) && step != Lose(Release(r))
    requires s.net[Release(r)] > 0
    ensures Do(c, s, step).net[Release(r)] > 0
  {
    if ByCaller(step) {
      CallersKeepReleases(c, s, step, r);
    } else if Arrives(step) {
      ArrivalKeepsReleases(c, s, step, r);
    }
  }

  lemma CallersKeepReleases(c: Cluster, s: State, step: Step, r: Req)
    requires WellFormed(c, s) && Enabled(c, s, step) && ByCaller(step) && !EndsTurn(step) && s.net[Release(r)] > 0
    ensures Do(c, s, step).net[Release(r)] > 0
  {
  }

  lemma ArrivalKeepsReleases(c: Cluster, s: State, step: Step, r: Req)
    requires WellFormed(c, s) && Enabled(c, s, step) && Arrives(step) && s.net[Release(r)] > 0
    ensures Do(c, s, step).net[Release(r)] > 0
  {
  }

  lemma StillEnding(c: Cluster, s: State, step: Step, r: Req)
    requires Inv(c, s) && Enabled(c, s, step) && !EndsTurn(step) && Arbiter(c, s).holder == Some(r) && Ending(s, r)
    ensures Ending(Do(c, s, step), r) || Evidence(Do(c, s, step), r) == 0
  {
    assert Ok(c, s, r);
    if step == Lose(Release(r)) {
      EvidenceMoves(c, s, step, r);
    } else if s.net[Release(r)] > 0 {
      ReleaseInFlight(c, s, step, r);
    } else if step != RemoteRelease(r) {
      HoldsUntilRelease(c, s, step, r);
    }
  }

  lemma DoomedStep(c: Cluster, s: State, step: Step)
    requires Inv(c, s) && Enabled(c, s, step) && Doomed(c, s)
    ensures Inv(c, Do(c, s, step)) && Doomed(c, Do(c, s, step))
  {
    var r, q := Arbiter(c, s).holder.value, Arbiter(c, s).queue;
    StepInv(c, s, step);
    if Lost(s, r) {
      StuckStep(c, s, step, r);
    } else if EndsTurn(step) {
      EndOfTurn(c, s, step);
    } else {
      OnlyReleaseChangesHolder(c, s, step);
      HeadStays(c, s, step);
      GaveUpForGood(c, s, step, q[0].req);
      StillEnding(c, s, step, r);
    }
  }

  /** Only a free lock or a token lets a caller in, and a doomed lock has neither. */
  lemma NobodyGetsIn(c: Cluster, s: State, step: Step, q: Req)
    requires Inv(c, s) && Enabled(c, s, step) && Doomed(c, s) && Ph(s, q) != Holding
    ensures Ph(Do(c, s, step), q) != Holding
  {
    assert Ok(c, s, q);
    if !ByCaller(step) {
      DeliveriesKeepPhases(c, s, step);
    } else if step.req != q {
      CallersMoveThemselves(c, s, step, q);
    }
  }

  lemma DoomedNext(c: Cluster, s: State, s': State, q: Req)
    requires Inv(c, s) && Next(c, s, s') && Doomed(c, s) && Ph(s, q) != Holding
    ensures Inv(c, s') && Doomed(c, s') && Ph(s', q) != Holding
  {
    var step :| Enabled(c, s, step) && s' == Do(c, s, step);
    DoomedStep(c, s, step);
    NobodyGetsIn(c, s, step, q);
  }

  lemma {:induction false} DoomedForever(c: Cluster, run: seq<State>, k: nat, j: nat, q: Req)
    requires k <= j < |run| && Inv(c, run[k]) && Doomed(c, run[k]) && Ph(run[k], q) != Holding
    requires forall i :: k <= i < j ==> StepAt(c, run, i)
    ensures Inv(c, run[j]) && Doomed(c, run[j]) && Ph(run[j], q) != Holding
    decreases j
  {
    if j > k {
      DoomedForever(c, run, k, j - 1, q);
      assert StepAt(c, run, j - 1);
      DoomedNext(c, run[j - 1], run[j], q);
    }
  }

  // ---- One more invariant: who waits can be reached ------------------------------------------------

  /** A waiting caller's channel is registered or holds its token already; who is done has no grant left over. */
  ghost predicate Tracked(c: Cluster, s: State, r: Req)
    requires WellFormed(c, s)
  {
    && (Ph(s, r) == Waiting || Ph(s, r) == Unsent ==>
      r.owner in c.nodes && (r in s.engines[r.owner].grants || s.tokens[r] > 0))
    && (Ph(s, r) == Done ==> r in s.granted && s.net[Grant(r.owner, r)] + s.handing[r] + s.tokens[r] == 0)
  }

  /** All that the protocol keeps; a free lock has nobody waiting for it either. */
  ghost predicate AllTracked(c: Cluster, s: State) {
    Inv(c, s) && FreeMeansNoQueue(Arbiter(c, s)) && forall r :: Tracked(c, s, r)
  }

  lemma InitTracked(c: Cluster, s: State)
    requires c.Valid() && Init(c, s)
    ensures AllTracked(c, s)
  {
    InitInv(c, s);
  }

  lemma NoQueueWhenFree(c: Cluster, s: State, step: Step)
    requires Inv(c, s) && Enabled(c, s, step) && FreeMeansNoQueue(Arbiter(c, s))
    ensures c.master in Do(c, s, step).engines && FreeMeansNoQueue(Arbiter(c, Do(c, s, step)))
  {
    if EndsTurn(step) {
      EndOfTurn(c, s, step);
      QueueAfterTurn(c, s, step);
    } else if Arrives(step) {
      ArrivalTakesLock(c, s, step);
    } else {
      OnlyReleaseChangesHolder(c, s, step);
      QueueUnchanged(c, s, step);
    }
  }

  lemma ArrivalTakesLock(c: Cluster, s: State, step: Step)
    requires WellFormed(c, s) && Enabled(c, s, step) && Arrives(step)
    ensures c.master in Do(c, s, step).engines && Arbiter(c, Do(c, s, step)).holder.Some?
  {
  }

  lemma HandOverTakesHead(c: Cluster, s: State, r: Req)
    requires c.master in s.engines && Arbiter(c, s).holder == Some(r)
    ensures var q := Arbiter(c, s).queue;
      Arbiter(c, AfterHandOver(c, s, r)).queue == if q == [] then [] else q[1..]
  {
  }

  /** The end of a turn takes the head out of the queue. */
  lemma QueueAfterTurn(c: Cluster, s: State, step: Step)
    requires Inv(c, s) && Enabled(c, s, step) && EndsTurn(step)
    ensures c.master in Do(c, s, step).engines
    ensures var q := Arbiter(c, s).queue; Arbiter(c, Do(c, s, step)).queue == if q == [] then [] else q[1..]
  {
    ReleaseIsHolders(c, s, step);
    if step.LocalRelease? {
      HandOverTakesHead(c, s.(phase := s.phase[step.req := Done]), step.req);
    } else {
      HandOverTakesHead(c, s.(net := s.net - multiset{Release(step.req)}), step.req);
    }
  }

  predicate GivesUp(step: Step) { step.RemoteSendFails? || step.Timeout? || step.Cancel? }

  lemma GivingUpTracked(c: Cluster, s: State, step: Step, r: Req)
    requires WellFormed(c, s) && Enabled(c, s, step) && GivesUp(step)
    requires WellFormed(c, Do(c, s, step)) && Tracked(c, s, r)
    ensures Tracked(c, Do(c, s, step), r)
  {
  }

  lemma CallerTracked(c: Cluster, s: State, step: Step, r: Req)
    requires WellFormed(c, s) && Enabled(c, s, step) && ByCaller(step) && !EndsTurn(step) && !GivesUp(step)
    requires WellFormed(c, Do(c, s, step)) && Ok(c, s, r) && Ok(c, s, step.req) && Tracked(c, s, r)
    ensures Tracked(c, Do(c, s, step), r)
  {
  }

  lemma RequestTracked(c: Cluster, s: State, step: Step, r: Req)
    requires WellFormed(c, s) && Addressed(c, s) && Enabled(c, s, step) && step.DeliverRequest?
    requires WellFormed(c, Do(c, s, step)) && Ok(c, s, r) && Tracked(c, s, r)
    ensures Tracked(c, Do(c, s, step), r)
  {
    assert step.from == step.req.owner;
  }

  lemma LookupTracked(c: Cluster, s: State, req: Req, r: Req)
    requires WellFormed(c, s) && Enabled(c, s, LookupGrant(req.owner, req)) && Tracked(c, s, r)
    requires WellFormed(c, Do(c, s, LookupGrant(req.owner, req)))
    ensures Tracked(c, Do(c, s, LookupGrant(req.owner, req)), r)
  {
  }

  lemma TokenTracked(c: Cluster, s: State, req: Req, r: Req)
    requires WellFormed(c, s) && Enabled(c, s, SendToken(req)) && Tracked(c, s, r)
    requires WellFormed(c, Do(c, s, SendToken(req)))
    ensures Tracked(c, Do(c, s, SendToken(req)), r)
  {
  }

  lemma LossTracked(c: Cluster, s: State, step: Step, r: Req)
    requires WellFormed(c, s) && Enabled(c, s, step) && (step.DropDeny? || step.Lose?) && Tracked(c, s, r)
    requires WellFormed(c, Do(c, s, step))
    ensures Tracked(c, Do(c, s, step), r)
  {
  }

  lemma HandOverTracked(c: Cluster, s: State, done: Req, r: Req)
    requires WellFormed(c, s) && OkReleased(c, s, done, r) && Tracked(c, s, r)
    requires Arbiter(c, s).queue != [] ==> Arbiter(c, s).queue[0].from == Arbiter(c, s).queue[0].req.owner
    ensures WellFormed(c, AfterHandOver(c, s, done)) && Tracked(c, AfterHandOver(c, s, done), r)
  {
    var q := Arbiter(c, s).queue;
    if q != [] {
      QueueTail(q, r);
    }
  }

  lemma EndTracked(c: Cluster, s: State, step: Step, r: Req)
    requires Inv(c, s) && Enabled(c, s, step) && EndsTurn(step) && Tracked(c, s, r)
    ensures WellFormed(c, Do(c, s, step)) && Tracked(c, Do(c, s, step), r)
  {
    assert Ok(c, s, r) && Ok(c, s, step.req);
    if step.LocalRelease? {
      LocalReleaseKeeps(c, s, step.req, r);
      HandOverTracked(c, s.(phase := s.phase[step.req := Done]), step.req, r);
    } else {
      DeliverReleaseKeeps(c, s, step.req, r);
      HandOverTracked(c, s.(net := s.net - multiset{Release(step.req)}), step.req, r);
    }
  }

  lemma StepTracked(c: Cluster, s: State, step: Step)
    requires AllTracked(c, s) && Enabled(c, s, step)
    ensures AllTracked(c, Do(c, s, step))
  {
    StepInv(c, s, step);
    NoQueueWhenFree(c, s, step);
    forall r
      ensures Tracked(c, Do(c, s, step), r)
    {
      assert Tracked(c, s, r) && Ok(c, s, r);
      if EndsTurn(step) {
        EndTracked(c, s, step, r);
      } else if GivesUp(step) {
        GivingUpTracked(c, s, step, r);
      } else if ByCaller(step) {
        assert Ok(c, s, step.req);
        CallerTracked(c, s, step, r);
      } else if step.DeliverRequest? {
        RequestTracked(c, s, step, r);
      } else if step.LookupGrant? {
        assert step.to == step.req.owner;
        LookupTracked(c, s, step.req, r);
      } else if step.SendToken? {
        TokenTracked(c, s, step.req, r);
      } else {
        LossTracked(c, s, step, r);
      }
    }
  }

  lemma NextTracked(c: Cluster, s: State, s': State)
    requires AllTracked(c, s) && Next(c, s, s')
    ensures AllTracked(c, s')
  {
    var step :| Enabled(c, s, step) && s' == Do(c, s, step);
    StepTracked(c, s, step);
  }

  lemma {:induction false} ReachableTracked(c: Cluster, run: seq<State>, k: nat)
    requires Behaviour(c, run) && k < |run|
    ensures AllTracked(c, run[k])
  {
    if k == 0 {
      InitTracked(c, run[0]);
    } else {
      ReachableTracked(c, run, k - 1);
      assert StepAt(c, run, k - 1);
      NextTracked(c, run[k - 1], run[k]);
    }
  }

  // ---- How the lock is acquired again --------------------------------------------------------------

  ghost predicate EndsIn(c: Cluster, run: seq<State>, s: State) {
    Behaviour(c, run) && run[|run| - 1] == s && AllTracked(c, s)
  }

  /** `run` can be continued to `s`. */
  ghost predicate Leads(c: Cluster, run: seq<State>, s: State) {
    exists longer :: run <= longer && EndsIn(c, longer, s)
  }

  lemma Stay(c: Cluster, run: seq<State>)
    requires Behaviour(c, run)
    ensures Leads(c, run, run[|run| - 1])
  {
    ReachableTracked(c, run, |run| - 1);
    assert EndsIn(c, run, run[|run| - 1]);
  }

  lemma OneMoreStep(c: Cluster, run: seq<State>, s: State, step: Step)
    requires EndsIn(c, run, s) && Enabled(c, s, step)
    ensures EndsIn(c, run + [Do(c, s, step)], Do(c, s, step))
  {
    var longer := run + [Do(c, s, step)];
    StepTracked(c, s, step);
    forall i | 0 <= i < |longer| - 1
      ensures StepAt(c, longer, i)
    {
      if i < |run| - 1 {
        assert StepAt(c, run, i);
      }
    }
  }

  lemma AfterStep(c: Cluster, run: seq<State>, s: State, step: Step)
    requires Leads(c, run, s) && WellFormed(c, s) && Enabled(c, s, step)
    ensures Leads(c, run, Do(c, s, step)) && AllTracked(c, Do(c, s, step))
  {
    var longer :| run <= longer && EndsIn(c, longer, s);
    OneMoreStep(c, longer, s, step);
  }

  /** A free lock can be taken by a caller at the master. */
  lemma TakesFreeLock(c: Cluster, run: seq<State>, s: State) returns (s': State, q: Req)
    requires Leads(c, run, s) && AllTracked(c, s) && Arbiter(c, s).holder.None?
    ensures Leads(c, run, s') && q !in s.phase && Ph(s', q) == Holding
  {
    var k := UnusedSerial(s.phase.Keys);
    q := Req(c.master, k);
    s' := Do(c, s, LocalAcquire(q));
    AfterStep(c, run, s, LocalAcquire(q));
  }

  /** The holder has been granted the lock and has not returned from Acquire yet. */
  ghost predicate Granted(c: Cluster, s: State, r: Req)
    requires c.master in s.engines
  {
    Arbiter(c, s).holder == Some(r) && Evidence(s, r) == 1 && Ph(s, r) != GaveUp && !Ending(s, r)
  }

  lemma GrantedWaits(c: Cluster, s: State, r: Req)
    requires AllTracked(c, s) && Granted(c, s, r)
    ensures Ph(s, r) == Joining || Ph(s, r) == Waiting
  {
    assert Ok(c, s, r) && Tracked(c, s, r);
  }

  /** Its token is on the way from the GRANT over the look-up into the channel and from there to the caller. */
  function TokenStep(s: State, r: Req): Step {
    if s.tokens[r] > 0 then TakeToken(r) else if s.handing[r] > 0 then SendToken(r) else LookupGrant(r.owner, r)
  }

  lemma TokenMoves(c: Cluster, s: State, r: Req)
    requires AllTracked(c, s) && Granted(c, s, r) && Ph(s, r) == Waiting
    ensures Enabled(c, s, TokenStep(s, r))
    ensures var s' := Do(c, s, TokenStep(s, r)); if s.tokens[r] > 0 then Ph(s', r) == Holding else
      && c.master in s'.engines && Granted(c, s', r) && Ph(s', r) == Waiting
      && (if s.handing[r] > 0 then s'.tokens[r] > 0 else s'.handing[r] > 0)
  {
    assert Ok(c, s, r) && Tracked(c, s, r);
  }

  /** How far a granted caller is from the critical section. */
  function Distance(s: State, r: Req): nat {
    if Ph(s, r) == Joining then 3 else if s.tokens[r] > 0 then 0 else if s.handing[r] > 0 then 1 else 2
  }

  /** Its next step: a local caller stores its channel, and then the token moves. */
  function TowardsInside(s: State, r: Req): Step {
    if Ph(s, r) == Joining then LocalRegister(r) else TokenStep(s, r)
  }

  lemma JoinsTowardsInside(c: Cluster, s: State, r: Req)
    requires AllTracked(c, s) && Granted(c, s, r) && Ph(s, r) == Joining
    ensures Enabled(c, s, LocalRegister(r)) && !Fatal(c, s, LocalRegister(r))
    ensures c.master in Do(c, s, LocalRegister(r)).engines
    ensures Granted(c, Do(c, s, LocalRegister(r)), r) && Ph(Do(c, s, LocalRegister(r)), r) == Waiting
  {
    assert Ok(c, s, r);
  }

  lemma TokenIsNotLost(c: Cluster, s: State, r: Req)
    requires AllTracked(c, s) && Granted(c, s, r) && Ph(s, r) == Waiting
    ensures Enabled(c, s, TokenStep(s, r)) && !Fatal(c, s, TokenStep(s, r))
  {
    assert Ok(c, s, r) && Tracked(c, s, r);
  }

  /** With it the caller is inside or nearer. */
  lemma MovesInside(c: Cluster, s: State, r: Req)
    requires AllTracked(c, s) && Granted(c, s, r)
    ensures Enabled(c, s, TowardsInside(s, r)) && !Fatal(c, s, TowardsInside(s, r))
    ensures var s' := Do(c, s, TowardsInside(s, r));
      c.master in s'.engines && (Ph(s', r) == Holding || (Granted(c, s', r) && Distance(s', r) < Distance(s, r)))
  {
    GrantedWaits(c, s, r);
    if Ph(s, r) == Joining {
      JoinsTowardsInside(c, s, r);
    } else {
      TokenMoves(c, s, r);
      TokenIsNotLost(c, s, r);
    }
  }

  lemma GrantedAcquires(c: Cluster, run: seq<State>, s: State, r: Req) returns (s': State)
    requires Leads(c, run, s) && AllTracked(c, s) && Granted(c, s, r)
    ensures Leads(c, run, s') && Ph(s', r) == Holding
    decreases Distance(s, r)
  {
    MovesInside(c, s, r);
    s' := Do(c, s, TowardsInside(s, r));
    AfterStep(c, run, s, TowardsInside(s, r));
    if Ph(s', r) != Holding {
      s' := GrantedAcquires(c, run, s', r);
    }
  }

  lemma NoneAfterTurn(c: Cluster, s: State, step: Step)
    requires Inv(c, s) && EndsTurn(step) && Enabled(c, s, step) && Arbiter(c, s).queue == []
    ensures c.master in Do(c, s, step).engines && Arbiter(c, Do(c, s, step)).holder.None?
  {
    EndOfTurn(c, s, step);
  }

  lemma HeadIsGranted(c: Cluster, s: State, step: Step)
    requires Inv(c, s) && EndsTurn(step) && Enabled(c, s, step) && Arbiter(c, s).queue != []
    requires Ph(s, Arbiter(c, s).queue[0].req) != GaveUp
    ensures var q := Arbiter(c, s).queue[0].req;
      q != step.req && Ph(s, q) != Holding && c.master in Do(c, s, step).engines && Granted(c, Do(c, s, step), q)
  {
    EndOfTurn(c, s, step);
    HeadHasNoRelease(c, s, step);
  }

  lemma EndOfTurnKeepsKeys(c: Cluster, s: State, step: Step, q: Req)
    requires Inv(c, s) && Enabled(c, s, step) && EndsTurn(step) && q !in Do(c, s, step).phase
    ensures Ph(s, q) == Fresh && q != step.req
  {
    assert Ok(c, s, step.req);
  }

  lemma HeadHasNoRelease(c: Cluster, s: State, step: Step)
    requires Inv(c, s) && Enabled(c, s, step) && EndsTurn(step) && Arbiter(c, s).queue != []
    ensures !Ending(Do(c, s, step), Arbiter(c, s).queue[0].req) && Arbiter(c, s).queue[0].req != step.req
  {
    var q, s' := Arbiter(c, s).queue[0].req, Do(c, s, step);
    EndOfTurn(c, s, step);
    ReleaseIsHolders(c, s, step);
    assert Ok(c, s, q) && Ok(c, s', q);
    QueueTail(Arbiter(c, s).queue, q);
  }

  /** The turn ends, and the next in the queue acquires the lock, or anybody if there is none. */
  lemma NextAcquires(c: Cluster, run: seq<State>, s: State, step: Step) returns (s': State, q: Req)
    requires Leads(c, run, s) && AllTracked(c, s) && EndsTurn(step) && Enabled(c, s, step)
    requires Arbiter(c, s).queue != [] ==> Ph(s, Arbiter(c, s).queue[0].req) != GaveUp
    ensures Leads(c, run, s') && q != step.req && Ph(s, q) != Holding && Ph(s', q) == Holding
  {
    AfterStep(c, run, s, step);
    if Arbiter(c, s).queue == [] {
      NoneAfterTurn(c, s, step);
      s', q := TakesFreeLock(c, run, Do(c, s, step));
      EndOfTurnKeepsKeys(c, s, step, q);
    } else {
      q := Arbiter(c, s).queue[0].req;
      HeadIsGranted(c, s, step);
      s' := GrantedAcquires(c, run, Do(c, s, step), q);
    }
  }

  lemma AcquiredAfterTurn(c: Cluster, run: seq<State>, s: State, r: Req) returns (s': State, q: Req)
    requires Leads(c, run, s) && AllTracked(c, s) && Arbiter(c, s).holder == Some(r) && Ending(s, r)
    requires Arbiter(c, s).queue != [] ==> Ph(s, Arbiter(c, s).queue[0].req) != GaveUp
    ensures Leads(c, run, s') && Ph(s, q) != Holding && Ph(s', q) == Holding
  {
    if s.net[Release(r)] > 0 {
      s', q := NextAcquires(c, run, s, DeliverRelease(r));
    } else if r.owner == c.master {
      s', q := NextAcquires(c, run, s, LocalRelease(r));
    } else {
      var s1 := Do(c, s, RemoteRelease(r));
      AfterStep(c, run, s, RemoteRelease(r));
      s', q := NextAcquires(c, run, s1, DeliverRelease(r));
    }
  }

  lemma AcquiredAgain(c: Cluster, run: seq<State>, s: State) returns (s': State, q: Req)
    requires Leads(c, run, s) && AllTracked(c, s) && !Doomed(c, s)
    ensures Leads(c, run, s') && Ph(s, q) != Holding && Ph(s', q) == Holding
  {
    var holder := Arbiter(c, s).holder;
    if holder.None? {
      s', q := TakesFreeLock(c, run, s);
    } else if !Ending(s, holder.value) {
      assert Ok(c, s, holder.value);
      q := holder.value;
      s' := GrantedAcquires(c, run, s, q);
    } else {
      s', q := AcquiredAfterTurn(c, run, s, holder.value);
    }
  }

  /** `longer` continues `run` and lets `q` in, who was not inside at the end of `run`. */
  ghost predicate LetsIn(c: Cluster, run: seq<State>, longer: seq<State>, q: Req)
    requires run != []
  {
    Behaviour(c, longer) && run <= longer && Ph(run[|run| - 1], q) != Holding && Ph(longer[|longer| - 1], q) == Holding
  }

  /** In every reachable state: somebody acquires the lock in some continuation exactly if it is not doomed. */
  lemma AcquirableIffNotDoomed(c: Cluster, run: seq<State>)
    requires Behaviour(c, run)
    ensures WellFormed(c, run[|run| - 1])
    ensures !Doomed(c, run[|run| - 1]) <==> exists longer, q :: LetsIn(c, run, longer, q)
  {
    var s := run[|run| - 1];
    ReachableTracked(c, run, |run| - 1);
    if Doomed(c, s) {
      forall longer, q
        ensures !LetsIn(c, run, longer, q)
      {
        if LetsIn(c, run, longer, q) {
          assert longer[|run| - 1] == s;
          DoomedForever(c, longer, |run| - 1, |longer| - 1, q);
          assert false;
        }
      }
    } else {
      Stay(c, run);
      var s', q := AcquiredAgain(c, run, s);
      var longer :| run <= longer && EndsIn(c, longer, s');
      assert LetsIn(c, run, longer, q);
    }
  }

  // ---- When everybody can have his turn ------------------------------------------------------------

  /** The current turn can end and nobody in the queue has given up. */
  predicate Flows(c: Cluster, s: State)
    requires c.master in s.engines
  {
    var e := Arbiter(c, s);
    && (e.holder.Some? ==> !Lost(s, e.holder.value))
    && forall i :: 0 <= i < |e.queue| ==> Ph(s, e.queue[i].req) != GaveUp
  }

  lemma NobodyElseGivesUp(c: Cluster, s: State, step: Step, q: Req)
    requires WellFormed(c, s) && Enabled(c, s, step) && !GivesUp(step) && Ph(s, q) != GaveUp
    ensures Ph(Do(c, s, step), q) != GaveUp
  {
    if !ByCaller(step) {
      DeliveriesKeepPhases(c, s, step);
    } else if step.req != q {
      CallersMoveThemselves(c, s, step, q);
    }
  }

  /** Steps of a turn that lose nothing keep the queue and the flow. */
  lemma FlowsDuringTurn(c: Cluster, s: State, step: Step)
    requires Inv(c, s) && Flows(c, s) && Enabled(c, s, step) && Arbiter(c, s).holder.Some?
    requires !EndsTurn(step) && !Arrives(step) && !GivesUp(step) && !Fatal(c, s, step)
    ensures c.master in Do(c, s, step).engines && Flows(c, Do(c, s, step))
    ensures Arbiter(c, Do(c, s, step)).holder == Arbiter(c, s).holder
    ensures Arbiter(c, Do(c, s, step)).queue == Arbiter(c, s).queue
  {
    var q := Arbiter(c, s).queue;
    OnlyReleaseChangesHolder(c, s, step);
    QueueUnchanged(c, s, step);
    FatalInTurn(c, s, step, Arbiter(c, s).holder.value);
    forall i | 0 <= i < |q|
      ensures Ph(Do(c, s, step), q[i].req) != GaveUp
    {
      NobodyElseGivesUp(c, s, step, q[i].req);
    }
  }

  lemma FlowsAfterTurn(c: Cluster, s: State, step: Step)
    requires Inv(c, s) && Flows(c, s) && Enabled(c, s, step) && EndsTurn(step)
    ensures c.master in Do(c, s, step).engines && Flows(c, Do(c, s, step))
    ensures var (q, e) := (Arbiter(c, s).queue, Arbiter(c, Do(c, s, step)));
      && e.queue == (if q == [] then [] else q[1..])
      && e.holder == (if q == [] then None else Some(q[0].req))
  {
    var q := Arbiter(c, s).queue;
    EndOfTurn(c, s, step);
    QueueAfterTurn(c, s, step);
    forall i | 0 <= i < |q|
      ensures Ph(Do(c, s, step), q[i].req) != GaveUp
    {
      NobodyElseGivesUp(c, s, step, q[i].req);
    }
  }

  /** A granted caller moves inside without a loss for anybody else. */
  lemma StepTowardsInside(c: Cluster, s: State, r: Req)
    requires AllTracked(c, s) && Flows(c, s) && Granted(c, s, r)
    ensures Enabled(c, s, TowardsInside(s, r)) && !EndsTurn(TowardsInside(s, r))
    ensures var s' := Do(c, s, TowardsInside(s, r));
      && c.master in s'.engines && Flows(c, s') && Arbiter(c, s').queue == Arbiter(c, s).queue
      && Arbiter(c, s').holder == Arbiter(c, s).holder
      && (Ph(s', r) == Holding || (Granted(c, s', r) && Distance(s', r) < Distance(s, r)))
  {
    GrantedWaits(c, s, r);
    MovesInside(c, s, r);
    FlowsDuringTurn(c, s, TowardsInside(s, r));
  }

  // ---- How the lock gets lost ----------------------------------------------------------------------

  ghost predicate Reachable(c: Cluster, s: State) {
    exists run :: EndsIn(c, run, s)
  }

  lemma ReachesOn(c: Cluster, s: State, step: Step)
    requires Reachable(c, s) && WellFormed(c, s) && Enabled(c, s, step)
    ensures Reachable(c, Do(c, s, step)) && AllTracked(c, Do(c, s, step))
  {
    var run :| EndsIn(c, run, s);
    OneMoreStep(c, run, s, step);
  }

  lemma Start(c: Cluster) returns (s: State)
    requires c.Valid()
    ensures Reachable(c, s) && WellFormed(c, s) && s.phase == map[] && s.net == multiset{}
    ensures forall n :: n in c.nodes ==> s.engines[n] == EMPTY
  {
    s := State(map n | n in c.nodes :: EMPTY, multiset{}, map[], multiset{}, multiset{}, {}, multiset{});
    InitTracked(c, s);
    assert EndsIn(c, [s], s);
  }

  /** Two callers at the master: one inside, the other queued and not registered yet. */
  lemma TwoCallers(c: Cluster, first: Req, late: Req) returns (s: State)
    requires c.Valid() && first.owner == late.owner == c.master && first != late
    ensures Reachable(c, s) && s.phase == map[first := Holding, late := Joining] && s.net == multiset{}
    ensures WellFormed(c, s) && Arbiter(c, s) == Engine(Some(first), [Pending(late, c.master)], {})
  {
    var s0 := Start(c);
    var s1 := Do(c, s0, LocalAcquire(first));
    ReachesOn(c, s0, LocalAcquire(first));
    s := Do(c, s1, LocalAcquire(late));
    ReachesOn(c, s1, LocalAcquire(late));
  }

  /** A queued local caller times out and the holder then releases. */
  lemma TimeoutLosesTheLock(c: Cluster, first: Req, late: Req) returns (s: State)
    requires c.Valid() && first.owner == late.owner == c.master && first != late
    ensures Reachable(c, s) && Stuck(c, s, late) && s.phase == map[first := Done, late := GaveUp]
  {
    var s0 := TwoCallers(c, first, late);
    var s1 := Do(c, s0, LocalRegister(late));
    ReachesOn(c, s0, LocalRegister(late));
    var s2 := Do(c, s1, Timeout(late));
    ReachesOn(c, s1, Timeout(late));
    s := Do(c, s2, LocalRelease(first));
    assert Arbiter(c, s2) == Engine(Some(first), [Pending(late, c.master)], {late});
    assert s2.phase == map[first := Holding, late := GaveUp];
    ReachesOn(c, s2, LocalRelease(first));
  }

  /**
   No timeout and no loss is needed: the holder releases before the queued caller has stored its channel, the
   GRANT that the master sends to itself is looked up too early, and the caller then waits in vain.
   */
  lemma EarlyGrantLosesTheLock(c: Cluster, first: Req, late: Req) returns (s: State)
    requires c.Valid() && first.owner == late.owner == c.master && first != late
    ensures Reachable(c, s) && Stuck(c, s, late) && s.phase == map[first := Done, late := Waiting]
  {
    var s0 := TwoCallers(c, first, late);
    var s1 := Do(c, s0, LocalRelease(first));
    ReachesOn(c, s0, LocalRelease(first));
    assert Arbiter(c, s1) == Engine(Some(late), [], {}) && s1.net == multiset{Grant(c.master, late)};
    s := GrantMissesChannel(c, s1, late);
  }

  lemma GrantMissesChannel(c: Cluster, s: State, r: Req) returns (s': State)
    requires Reachable(c, s) && AllTracked(c, s) && Arbiter(c, s).holder == Some(r)
    requires Ph(s, r) == Joining && r.owner == c.master
    requires Grant(c.master, r) in s.net && r !in Arbiter(c, s).grants
    ensures Reachable(c, s') && Stuck(c, s', r) && s'.phase == s.phase[r := Waiting]
  {
    var s1 := Do(c, s, LookupGrant(c.master, r));
    ReachesOn(c, s, LookupGrant(c.master, r));
    EvidenceMoves(c, s, LookupGrant(c.master, r), r);
    assert Ok(c, s, r);
    StuckStep(c, s1, LocalRegister(r), r);
    s' := Do(c, s1, LocalRegister(r));
    ReachesOn(c, s1, LocalRegister(r));
  }

  /** A RELEASE, whose send error is ignored, is lost: this can happen to the turn of every remote caller. */
  lemma FailedReleaseLosesTheLock(c: Cluster, run: seq<State>, s: State, r: Req) returns (s': State)
    requires Behaviour(c, run) && run[|run| - 1] == s && Ph(s, r) == Holding && r.owner != c.master
    ensures Leads(c, run, s') && Stuck(c, s', r) && Ph(s', r) == Done
  {
    Stay(c, run);
    ReachableTracked(c, run, |run| - 1);
    var s1 := Do(c, s, RemoteRelease(r));
    AfterStep(c, run, s, RemoteRelease(r));
    s' := Do(c, s1, Lose(Release(r)));
    AfterStep(c, run, s1, Lose(Release(r)));
    assert Ok(c, s, r) && Ok(c, s1, r);
    EvidenceMoves(c, s1, Lose(Release(r)), r);
  }

  /** A caller at another node than the master registers, and its request reaches the free lock. */
  lemma RemoteRequest(c: Cluster, r: Req) returns (s: State)
    requires c.Valid() && r.owner in c.nodes && r.owner != c.master
    ensures Reachable(c, s) && AllTracked(c, s) && Granted(c, s, r)
  {
    var s0 := Start(c);
    var s1 := Do(c, s0, RemoteRegister(r));
    ReachesOn(c, s0, RemoteRegister(r));
    var s2 := Do(c, s1, RemoteSend(r));
    ReachesOn(c, s1, RemoteSend(r));
    s := Do(c, s2, DeliverRequest(r.owner, r));
    ReachesOn(c, s2, DeliverRequest(r.owner, r));
    RequestIsGranted(c, s2, r);
  }

  lemma RequestIsGranted(c: Cluster, s: State, r: Req)
    requires AllTracked(c, s) && Arbiter(c, s).holder.None? && Ph(s, r) == Waiting && Request(r.owner, r) in s.net
    ensures AllTracked(c, Do(c, s, DeliverRequest(r.owner, r))) && Granted(c, Do(c, s, DeliverRequest(r.owner, r)), r)
  {
    var s' := Do(c, s, DeliverRequest(r.owner, r));
    StepTracked(c, s, DeliverRequest(r.owner, r));
    assert Ok(c, s, r) && Ok(c, s', r);
  }

  /** Any node but the master can have such a turn. */
  lemma RemoteTurn(c: Cluster, r: Req) returns (run: seq<State>, s: State)
    requires c.Valid() && r.owner in c.nodes && r.owner != c.master
    ensures Behaviour(c, run) && run[|run| - 1] == s && Ph(s, r) == Holding
  {
    var s1 := RemoteRequest(c, r);
    var run1 :| EndsIn(c, run1, s1);
    Stay(c, run1);
    s := GrantedAcquires(c, run1, s1, r);
    run :| run1 <= run && EndsIn(c, run, s);
  }
}
