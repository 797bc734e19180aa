/**
 Exactly when the ticket workflow loses an engineer: which closes leave their engineer unavailable for good.
 */
module TicketConditions {
  import opened Options
  import L = LockProtocol
  import opened LockEngine
  import opened TicketPaths
  import opened TicketWorkflow

  /** An engineer without a ticket whose row says unavailable. */
  ghost predicate Stranded(s: State, e: Engineer) {
    e in s.staff && e !in s.available && Unbooked(s, e)
  }

  /** The current caller is about to mark the engineer although the ticket is gone. */
  ghost predicate Overtaken(c: L.Cluster, s: State, e: Engineer)
    requires c.master in s.lock.engines
  {
    Current(c, s) == Inserted(e) && Unbooked(s, e)
  }

  ghost predicate Lost(c: L.Cluster, s: State, e: Engineer)
    requires c.master in s.lock.engines
  {
    Stranded(s, e) || Overtaken(c, s, e)
  }

  /** A close that reaches the engineer's row while that still says available. */
  predicate FreesEarly(s: State, step: Step, e: Engineer) {
    step.FreeEngineer? && step.id in s.tickets && s.tickets[step.id].eng == e && e in s.available
  }

  /** That is: before the mark of its own ticket has been applied. */
  lemma EarlyMeansBeforeMark(c: L.Cluster, s: State, step: Step, e: Engineer)
    requires Inv(c, s) && Enabled(c, s, step) && step.FreeEngineer? && s.tickets[step.id].eng == e
    ensures FreesEarly(s, step, e) <==> Current(c, s) == Inserted(e)
  {
    assert Busy(s, step.id);
  }

  lemma LockStepLoses(c: L.Cluster, s: State, ls: L.Step, e: Engineer)
    requires Inv(c, s) && Enabled(c, s, Lock(ls))
    ensures L.WellFormed(c, Do(c, s, Lock(ls)).lock)
    ensures Lost(c, Do(c, s, Lock(ls)), e) <==> Lost(c, s, e)
  {
    var s' := Do(c, s, Lock(ls));
    CurrentAfterLockStep(c, s, ls);
    assert forall t :: Busy(s', t) == Busy(s, t);
  }

  lemma CallerLoses(c: L.Cluster, s: State, step: Step, e: Engineer)
    requires Inv(c, s) && Enabled(c, s, step) && ByCaller(step) && !Unsafe(step)
    ensures L.WellFormed(c, Do(c, s, step).lock)
    ensures Lost(c, Do(c, s, step), e) <==> Lost(c, s, e)
  {
    var s' := Do(c, s, step);
    CallerIsCurrent(c, s, step);
    assert forall t :: Busy(s, t) ==> Busy(s', t) && s'.tickets[t] == s.tickets[t];
    if step.Insert? {
      assert Busy(s', step.id) && s'.tickets[step.id].eng == StageOf(s', step.req).eng;
    }
  }

  lemma OtherLoses(c: L.Cluster, s: State, step: Step, e: Engineer)
    requires Inv(c, s) && Enabled(c, s, step) && !ByCaller(step) && !step.Lock? && !Unsafe(step)
    ensures L.WellFormed(c, Do(c, s, step).lock)
    ensures Lost(c, Do(c, s, step), e) <==> Lost(c, s, e) || FreesEarly(s, step, e)
  {
    var s' := Do(c, s, step);
    assert forall t :: Busy(s', t) == (Busy(s, t) && !(step.FreeEngineer? && t == step.id));
    assert forall t :: Busy(s', t) ==> s'.tickets[t].eng == s.tickets[t].eng;
    if step.FreeEngineer? {
      assert Busy(s, step.id);
      EarlyMeansBeforeMark(c, s, step, s.tickets[step.id].eng);
    }
  }

  /** A safe step loses an engineer exactly if it frees its row early, and none brings a lost one back. */
  lemma StepLosesExactly(c: L.Cluster, s: State, step: Step, e: Engineer)
    requires Inv(c, s) && Enabled(c, s, step) && !Unsafe(step)
    ensures Inv(c, Do(c, s, step))
    ensures Lost(c, Do(c, s, step), e) <==> Lost(c, s, e) || FreesEarly(s, step, e)
  {
    StepInv(c, s, step);
    if step.Lock? {
      LockStepLoses(c, s, step.step, e);
    } else if ByCaller(step) {
      CallerLoses(c, s, step, e);
    } else {
      OtherLoses(c, s, step, e);
    }
  }

  /** The step at `i` frees the row of `e` early. */
  ghost predicate FreedEarlyAt(c: L.Cluster, run: seq<State>, i: nat, e: Engineer)
    requires i + 1 < |run|
  {
    L.WellFormed(c, run[i].lock) &&
      exists step :: Enabled(c, run[i], step) && run[i + 1] == Do(c, run[i], step) && FreesEarly(run[i], step, e)
  }

  /** ... or some step before `k` does. */
  ghost predicate FreedEarly(c: L.Cluster, run: seq<State>, k: nat, e: Engineer)
    requires k < |run|
  {
    exists i :: 0 <= i < k && FreedEarlyAt(c, run, i, e)
  }

  lemma NextLoses(c: L.Cluster, run: seq<State>, i: nat, e: Engineer)
    requires i + 1 < |run| && Inv(c, run[i]) && StepAt(c, run, i, Safe)
    ensures Inv(c, run[i + 1])
    ensures Lost(c, run[i + 1], e) ==> Lost(c, run[i], e) || FreedEarlyAt(c, run, i, e)
    ensures Lost(c, run[i], e) ==> Lost(c, run[i + 1], e)
  {
    var step :| Enabled(c, run[i], step) && Allowed(step, Safe) && run[i + 1] == Do(c, run[i], step);
    StepLosesExactly(c, run[i], step, e);
  }

  lemma EarlyCloseLoses(c: L.Cluster, run: seq<State>, i: nat, e: Engineer)
    requires i + 1 < |run| && Inv(c, run[i]) && FreedEarlyAt(c, run, i, e)
    ensures L.WellFormed(c, run[i + 1].lock) && Lost(c, run[i + 1], e)
  {
    var early :| Enabled(c, run[i], early) && run[i + 1] == Do(c, run[i], early) && FreesEarly(run[i], early, e);
    StepLosesExactly(c, run[i], early, e);
  }

  lemma NextLosesExactly(c: L.Cluster, run: seq<State>, i: nat, e: Engineer)
    requires i + 1 < |run| && Inv(c, run[i]) && StepAt(c, run, i, Safe)
    ensures Inv(c, run[i + 1])
    ensures Lost(c, run[i + 1], e) <==> Lost(c, run[i], e) || FreedEarlyAt(c, run, i, e)
  {
    NextLoses(c, run, i, e);
    if FreedEarlyAt(c, run, i, e) {
      EarlyCloseLoses(c, run, i, e);
    }
  }

  lemma OneMoreStep(c: L.Cluster, run: seq<State>, k: nat, e: Engineer)
    requires k + 1 < |run|
    ensures FreedEarly(c, run, k + 1, e) <==> FreedEarly(c, run, k, e) || FreedEarlyAt(c, run, k, e)
  {
  }

  lemma {:induction false} LostExactlyByEarlyCloses(c: L.Cluster, run: seq<State>, k: nat, e: Engineer)
    requires k < |run| && Inv(c, run[0]) && !Lost(c, run[0], e)
    requires forall i :: 0 <= i < k ==> StepAt(c, run, i, Safe)
    ensures Inv(c, run[k]) && (Lost(c, run[k], e) <==> FreedEarly(c, run, k, e))
  {
    if k > 0 {
      LostExactlyByEarlyCloses(c, run, k - 1, e);
      assert StepAt(c, run, k - 1, Safe);
      NextLosesExactly(c, run, k - 1, e);
      OneMoreStep(c, run, k - 1, e);
    }
  }

  /**
   When nobody is inside the critical section, an engineer is stranded exactly if some close reached its row
   while that still said available.
   */
  lemma StrandedExactlyByEarlyCloses(c: L.Cluster, run: seq<State>, k: nat, e: Engineer)
    requires Behaviour(c, run, Safe) && k < |run| && forall r :: !Inside(run[k], r)
    ensures Stranded(run[k], e) <==> FreedEarly(c, run, k, e)
  {
    ReachableInv(c, run, 0);
    assert forall i :: 0 <= i < k ==> StepAt(c, run, i, Safe);
    LostExactlyByEarlyCloses(c, run, k, e);
  }

  /** So the engineer's row is exact (available means no ticket and the other way round) exactly without one. */
  lemma AvailabilityIsExact(c: L.Cluster, run: seq<State>, k: nat, e: Engineer)
    requires Behaviour(c, run, Safe) && k < |run| && e in run[k].staff && forall r :: !Inside(run[k], r)
    ensures (e in run[k].available <==> Unbooked(run[k], e)) <==> !FreedEarly(c, run, k, e)
  {
    ReachableInv(c, run, k);
    StrandedExactlyByEarlyCloses(c, run, k, e);
  }

  /** Nothing in a safe run ever gives a stranded engineer work again. */
  lemma StrandedForever(c: L.Cluster, run: seq<State>, k: nat, j: nat, e: Engineer)
    requires Behaviour(c, run, Safe) && k <= j < |run| && Stranded(run[k], e)
    ensures Stranded(run[j], e)
    decreases j
  {
    if j > k {
      StrandedForever(c, run, k, j - 1, e);
      ReachableInv(c, run, j - 1);
      assert StepAt(c, run, j - 1, Safe);
      StrandedNext(c, run[j - 1], run[j], e);
    }
  }

  lemma StrandedNext(c: L.Cluster, s: State, s': State, e: Engineer)
    requires Inv(c, s) && Stranded(s, e) && Next(c, s, s', Safe)
    ensures Stranded(s', e)
  {
    var step :| Enabled(c, s, step) && Allowed(step, Safe) && s' == Do(c, s, step);
    StrandedStep(c, s, step, e);
  }

  lemma StrandedStep(c: L.Cluster, s: State, step: Step, e: Engineer)
    requires Inv(c, s) && Stranded(s, e) && Enabled(c, s, step) && !Unsafe(step)
    ensures Stranded(Do(c, s, step), e)
  {
    var s' := Do(c, s, step);
    if step.Insert? {
      InsideIsCurrent(c, s, step.req);
    }
    assert forall t :: Busy(s', t) && !(step.Insert? && t == step.id) ==>
      Busy(s, t) && s'.tickets[t].eng == s.tickets[t].eng;
  }

  /** Every engineer that is available on an idle cluster can be stranded by a close that overtakes the mark. */
  lemma EarlyCloseStrands(c: L.Cluster, s: State, e: Engineer) returns (s': State)
    requires Inv(c, s) && Idle(c, s) && e in s.available
    ensures Leads(c, s, s') && Idle(c, s') && Stranded(s', e)
  {
    var s1, s2, r, id;
    Stay(c, s);
    s1, r := Acquire(c, s, s);
    s2, id := InsertOne(c, s, s1, r, e);
    s' := CloseAndFree(c, s, s2, id);
    InsideIsCurrent(c, s', r);
    assert Unbooked(s', e) by {
      assert forall t :: Busy(s', t) ==> Busy(s, t) && s'.tickets[t] == s.tickets[t];
      assert Current(c, s) == Finished;
    }
    s' := Drain(c, s, s');
    assert id in s'.tickets && s'.tickets[id].eng == e;
  }

  // ---- Marks that come late -----------------------------------------------------------------------

  /** A missed mark that arrives next is as good as one in time. */
  lemma MissedThenMarked(c: L.Cluster, s: State, r: Req)
    requires L.WellFormed(c, s.lock) && Enabled(c, s, MissMark(r))
    ensures var (missed, e) := (Do(c, s, MissMark(r)), StageOf(s, r).eng);
      Enabled(c, missed, LateMark(e)) && Do(c, missed, LateMark(e)) == Do(c, s, ApplyMark(r))
  {
    var e := StageOf(s, r).eng;
    assert s.late + multiset{e} - multiset{e} == s.late;
  }

  /** One that arrives when the ticket has been freed strands its engineer, and it strands nobody else. */
  lemma LateMarkStrandsExactly(c: L.Cluster, s: State, e: Engineer, f: Engineer)
    requires L.WellFormed(c, s.lock) && Enabled(c, s, LateMark(e)) && e in s.staff
    ensures Stranded(Do(c, s, LateMark(e)), f) <==> if f == e then Unbooked(s, e) else Stranded(s, f)
  {
    assert forall t :: Busy(Do(c, s, LateMark(e)), t) == Busy(s, t);
  }
}
