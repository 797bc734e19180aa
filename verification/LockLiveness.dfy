/**
 When the lock of internal/mutex/mutex.go can be acquired again, and when it never will.

 A turn ends by its release only, so a lock whose holder cannot release it is lost.  The steps that lose it,
 the states from which nobody will acquire it, and a way to acquire it from all others are given exactly.
 */
module LockLiveness {
  import opened Options
  import opened LockEngine
  import opened LockProtocol

  /** The turn of `r` cannot end: its caller has given up, or nothing that could lead to a release is left. */
  predicate Lost(s: State, r: Req) { Ph(s, r) == GaveUp || Evidence(s, r) == 0 }

  ghost predicate Stuck(c: Cluster, s: State, r: Req) {
    Inv(c, s) && Arbiter(c, s).holder == Some(r) && Lost(s, r)
  }

  predicate StuckNow(c: Cluster, s: State)
    requires c.master in s.engines
  {
    var holder := Arbiter(c, s).holder; holder.Some? && Lost(s, holder.value)
  }

  // ---- Which steps get the lock stuck --------------------------------------------------------------

  /** A GRANT or RELEASE is lost, or a GRANT finds no channel of its request. */
  predicate DropsEvidence(c: Cluster, s: State, step: Step)
    requires WellFormed(c, s) && Enabled(c, s, step)
  {
    || (step.Lose? && (step.msg.Grant? || step.msg.Release?))
    || (step.LookupGrant? && step.req !in s.engines[step.to].grants)
  }

  /** ... or the lock is with, or goes to, a caller that gives up or has given up. */
  predicate Fatal(c: Cluster, s: State, step: Step)
    requires WellFormed(c, s) && Enabled(c, s, step)
  {
    var e := Arbiter(c, s);
    || DropsEvidence(c, s, step)
    || ((step.Timeout? || step.Cancel?) && e.holder == Some(step.req))
    || ((step.LocalRelease? || step.DeliverRelease?) && e.queue != [] && Ph(s, e.queue[0].req) == GaveUp)
    || (step.DeliverRequest? && e.holder.None? && Ph(s, step.req) == GaveUp)
  }

  predicate Arrives(step: Step) { step.LocalAcquire? || step.DeliverRequest? }

  predicate EndsTurn(step: Step) { step.LocalRelease? || step.DeliverRelease? }

  lemma OnlyReleaseChangesHolder(c: Cluster, s: State, step: Step)
    requires WellFormed(c, s) && Enabled(c, s, step) && !EndsTurn(step)
    requires Arrives(step) ==> Arbiter(c, s).holder.Some?
    ensures c.master in Do(c, s, step).engines
    ensures Arbiter(c, Do(c, s, step)).holder == Arbiter(c, s).holder
  {
  }

  lemma GaveUpForGood(c: Cluster, s: State, step: Step, r: Req)
    requires WellFormed(c, s) && Enabled(c, s, step) && Ph(s, r) == GaveUp
    ensures Ph(Do(c, s, step), r) == GaveUp
  {
    if !ByCaller(step) {
      DeliveriesKeepPhases(c, s, step);
    } else if step.req != r {
      CallersMoveThemselves(c, s, step, r);
    }
  }

  /** During a turn the holder's evidence moves on, or is dropped; none is added. */
  lemma EvidenceMoves(c: Cluster, s: State, step: Step, r: Req)
    requires Inv(c, s) && Enabled(c, s, step) && !EndsTurn(step) && !Arrives(step)
    requires Arbiter(c, s).holder == Some(r)
    ensures Evidence(Do(c, s, step), r) == Evidence(s, r) - if DropsEvidence(c, s, step) then 1 else 0
  {
    assert Ok(c, s, r);
    if ByCaller(step) {
      assert Ok(c, s, step.req);
      CallersKeepEvidence(c, s, step, r);
    } else {
      assert !step.DropDeny? ==> Ok(c, s, if step.Lose? then step.msg.req else step.req);
      NetworkMovesEvidence(c, s, step, r);
    }
  }

  lemma CallersKeepEvidence(c: Cluster, s: State, step: Step, r: Req)
    requires WellFormed(c, s) && Enabled(c, s, step) && ByCaller(step) && !EndsTurn(step) && !Arrives(step)
    requires Arbiter(c, s).holder == Some(r) && Ok(c, s, r) && Ok(c, s, step.req)
    ensures Evidence(Do(c, s, step), r) == Evidence(s, r)
  {
  }

  lemma NetworkMovesEvidence(c: Cluster, s: State, step: Step, r: Req)
    requires WellFormed(c, s) && Addressed(c, s) && Enabled(c, s, step) && !ByCaller(step)
    requires !EndsTurn(step) && !Arrives(step) && Arbiter(c, s).holder == Some(r) && Ok(c, s, r)
    requires !step.DropDeny? ==> Ok(c, s, if step.Lose? then step.msg.req else step.req)
    ensures Evidence(Do(c, s, step), r) == Evidence(s, r) - if DropsEvidence(c, s, step) then 1 else 0
  {
    if step.Lose? {
      LossMovesEvidence(c, s, step.msg, r);
    }
  }

  lemma LossMovesEvidence(c: Cluster, s: State, m: Msg, r: Req)
    requires WellFormed(c, s) && Addressed(c, s) && Enabled(c, s, Lose(m))
    requires Arbiter(c, s).holder == Some(r) && Ok(c, s, r) && Ok(c, s, m.req)
    ensures Evidence(Do(c, s, Lose(m)), r) == Evidence(s, r) - if m.Grant? || m.Release? then 1 else 0
  {
    if m.Grant? || m.Release? {
      assert Evidence(s, m.req) > 0;
    }
  }

  lemma ArrivalKeepsEvidence(c: Cluster, s: State, step: Step, r: Req)
    requires Inv(c, s) && Enabled(c, s, step) && Arrives(step) && Arbiter(c, s).holder == Some(r)
    ensures Evidence(Do(c, s, step), r) == Evidence(s, r) && Ph(Do(c, s, step), r) == Ph(s, r)
  {
    assert Ok(c, s, r);
  }

  /** A release in the critical section or on its way is the holder's. */
  lemma ReleaseIsHolders(c: Cluster, s: State, step: Step)
    requires Inv(c, s) && Enabled(c, s, step) && EndsTurn(step)
    ensures Arbiter(c, s).holder == Some(step.req) && Evidence(s, step.req) == 1 && Ph(s, step.req) != GaveUp
  {
    assert Ok(c, s, step.req);
  }

  /** The next in the queue becomes holder, with a token or a GRANT on its way. */
  lemma HandOverGrants(c: Cluster, s: State, r: Req)
    requires WellFormed(c, s) && Addressed(c, s) && Arbiter(c, s).holder == Some(r) && Arbiter(c, s).queue != []
    ensures var q, s' := Arbiter(c, s).queue[0].req, AfterHandOver(c, s, r);
      && Arbiter(c, s').holder == Some(q)
      && Evidence(s', q) > 0
  {
  }

  lemma EndOfTurn(c: Cluster, s: State, step: Step)
    requires Inv(c, s) && Enabled(c, s, step) && EndsTurn(step)
    ensures var (q, s') := (Arbiter(c, s).queue, Do(c, s, step));
      && Inv(c, s')
      && (q == [] ==> Arbiter(c, s').holder.None?)
      && (q != [] ==> Arbiter(c, s').holder == Some(q[0].req) && Evidence(s', q[0].req) == 1)
      && (q != [] ==> Ph(s', q[0].req) == Ph(s, q[0].req) != Holding)
  {
    ReleaseIsHolders(c, s, step);
    StepInv(c, s, step);
    var q, s' := Arbiter(c, s).queue, Do(c, s, step);
    if q != [] {
      var s1 := if step.LocalRelease? then s.(phase := s.phase[step.req := Done])
                else s.(net := s.net - multiset{Release(step.req)});
      HandOverGrants(c, s1, step.req);
      assert Ok(c, s, q[0].req) && Ok(c, s', q[0].req);
      QueueTail(q, q[0].req);
    }
  }

  /** The holder gives up by its own timeout or cancellation only. */
  lemma PhaseOfHolder(c: Cluster, s: State, step: Step, r: Req)
    requires WellFormed(c, s) && Enabled(c, s, step) && !EndsTurn(step) && !Arrives(step)
    requires Arbiter(c, s).holder == Some(r) && Ok(c, s, r) && Ph(s, r) != GaveUp
    ensures Ph(Do(c, s, step), r) == GaveUp <==> (step.Timeout? || step.Cancel?) && step.req == r
  {
    if !ByCaller(step) {
      DeliveriesKeepPhases(c, s, step);
    } else if step.req != r {
      CallersMoveThemselves(c, s, step, r);
    }
  }

  lemma FatalInTurn(c: Cluster, s: State, step: Step, r: Req)
    requires Inv(c, s) && Enabled(c, s, step) && !EndsTurn(step) && !Arrives(step)
    requires Arbiter(c, s).holder == Some(r) && !Lost(s, r)
    ensures Lost(Do(c, s, step), r) <==> Fatal(c, s, step)
  {
    assert Ok(c, s, r);
    EvidenceMoves(c, s, step, r);
    PhaseOfHolder(c, s, step, r);
  }

  lemma FatalDuringTurn(c: Cluster, s: State, step: Step, r: Req)
    requires Inv(c, s) && Enabled(c, s, step) && !EndsTurn(step) && Arbiter(c, s).holder == Some(r)
    requires !Lost(s, r)
    ensures Lost(Do(c, s, step), r) <==> Fatal(c, s, step)
  {
    if Arrives(step) {
      ArrivalKeepsEvidence(c, s, step, r);
    } else {
      FatalInTurn(c, s, step, r);
    }
  }

  lemma NothingIsFatalWhenFree(c: Cluster, s: State, step: Step)
    requires Inv(c, s) && Enabled(c, s, step) && !EndsTurn(step) && !Arrives(step) && Arbiter(c, s).holder.None?
    ensures !Fatal(c, s, step)
  {
    assert step.Lose? ==> Ok(c, s, step.msg.req);
    assert step.LookupGrant? ==> Ok(c, s, step.req);
  }

  lemma FatalArrival(c: Cluster, s: State, step: Step)
    requires Inv(c, s) && Enabled(c, s, step) && Arrives(step) && Arbiter(c, s).holder.None?
    ensures c.master in Do(c, s, step).engines && Arbiter(c, Do(c, s, step)).holder == Some(step.req)
    ensures Lost(Do(c, s, step), step.req) <==> Fatal(c, s, step)
  {
    assert step.DeliverRequest? ==> step.from == step.req.owner;
  }

  lemma FatalEndOfTurn(c: Cluster, s: State, step: Step)
    requires Inv(c, s) && Enabled(c, s, step) && EndsTurn(step)
    ensures c.master in Do(c, s, step).engines
    ensures StuckNow(c, Do(c, s, step)) <==> Fatal(c, s, step)
  {
    EndOfTurn(c, s, step);
  }

  /** A step gets the lock stuck exactly if it is fatal. */
  lemma StuckExactlyByFatalSteps(c: Cluster, s: State, step: Step)
    requires Inv(c, s) && Enabled(c, s, step) && !StuckNow(c, s)
    ensures c.master in Do(c, s, step).engines
    ensures StuckNow(c, Do(c, s, step)) <==> Fatal(c, s, step)
  {
    if EndsTurn(step) {
      FatalEndOfTurn(c, s, step);
    } else if Arbiter(c, s).holder.Some? {
      OnlyReleaseChangesHolder(c, s, step);
      FatalDuringTurn(c, s, step, Arbiter(c, s).holder.value);
    } else if Arrives(step) {
      FatalArrival(c, s, step);
    } else {
      OnlyReleaseChangesHolder(c, s, step);
      NothingIsFatalWhenFree(c, s, step);
    }
  }

  // ---- Stuck for good ------------------------------------------------------------------------------

  lemma StuckStep(c: Cluster, s: State, step: Step, r: Req)
    requires Stuck(c, s, r) && Enabled(c, s, step)
    ensures Stuck(c, Do(c, s, step), r)
  {
    StepInv(c, s, step);
    if EndsTurn(step) {
      ReleaseIsHolders(c, s, step);
    } else {
      OnlyReleaseChangesHolder(c, s, step);
      if Ph(s, r) == GaveUp {
        GaveUpForGood(c, s, step, r);
      } else if Arrives(step) {
        ArrivalKeepsEvidence(c, s, step, r);
      } else {
        EvidenceMoves(c, s, step, r);
      }
    }
  }

  lemma StuckNext(c: Cluster, s: State, s': State, r: Req)
    requires Stuck(c, s, r) && Next(c, s, s')
    ensures Stuck(c, s', r)
  {
    var step :| Enabled(c, s, step) && s' == Do(c, s, step);
    StuckStep(c, s, step, r);
  }

  lemma StuckMeansNobodyHolds(c: Cluster, s: State, r: Req, q: Req)
    requires Stuck(c, s, r)
    ensures Ph(s, q) != Holding
  {
    assert Ok(c, s, r) && Ok(c, s, q);
  }

  lemma {:induction false} StaysStuck(c: Cluster, run: seq<State>, k: nat, j: nat, r: Req)
    requires k <= j < |run| && Stuck(c, run[k], r) && forall i :: k <= i < j ==> StepAt(c, run, i)
    ensures Stuck(c, run[j], r)
    decreases j
  {
    if j > k {
      StaysStuck(c, run, k, j - 1, r);
      assert StepAt(c, run, j - 1);
      StuckNext(c, run[j - 1], run[j], r);
    }
  }

  /** Once the lock is stuck nobody is inside and nobody gets in, whatever happens afterwards. */
  lemma StuckForever(c: Cluster, run: seq<State>, k: nat, j: nat, r: Req, q: Req)
    requires Behaviour(c, run) && k <= j < |run| && Stuck(c, run[k], r)
    ensures Stuck(c, run[j], r) && Ph(run[j], q) != Holding
  {
    StaysStuck(c, run, k, j, r);
    StuckMeansNobodyHolds(c, run[j], r, q);
  }
}
