/**
 Safe continuations of the ticket workflow: whole raises, and the way in which all callers that hold or wait for
 the lock come to their end.
 */
module TicketPaths {
  import opened Options
  import L = LockProtocol
  import Liv = LockLiveness
  import R = LockRecovery
  import opened LockEngine
  import opened TicketWorkflow

  /** The lock is free and nobody waits for it. */
  predicate Idle(c: L.Cluster, s: State)
    requires c.master in s.lock.engines
  {
    L.Arbiter(c, s.lock).holder.None? && L.Arbiter(c, s.lock).queue == []
  }

  /** A path of safe steps from `s` to `s'`. */
  ghost predicate LeadsOver(c: L.Cluster, s: State, path: seq<State>, s': State) {
    Path(c, path, Safe) && path[0] == s && path[|path| - 1] == s' && Base(c, s')
  }

  /** Safe steps lead from `s` to `s'`. */
  ghost predicate Leads(c: L.Cluster, s: State, s': State) {
    exists path :: LeadsOver(c, s, path, s')
  }

  lemma Stay(c: L.Cluster, s: State)
    requires Base(c, s)
    ensures Leads(c, s, s)
  {
    assert LeadsOver(c, s, [s], s);
  }

  lemma OneMoreStep(c: L.Cluster, s: State, path: seq<State>, s1: State, step: Step)
    requires LeadsOver(c, s, path, s1) && Enabled(c, s1, step) && !Unsafe(step)
    ensures LeadsOver(c, s, path + [Do(c, s1, step)], Do(c, s1, step))
  {
    StepBase(c, s1, step);
    var longer := path + [Do(c, s1, step)];
    assert Allowed(step, Safe) && Next(c, s1, Do(c, s1, step), Safe);
    forall i | 0 <= i < |longer| - 1
      ensures StepAt(c, longer, i, Safe)
    {
      if i < |path| - 1 {
        assert StepAt(c, path, i, Safe);
      }
    }
  }

  lemma AfterStep(c: L.Cluster, s: State, s1: State, step: Step)
    requires Leads(c, s, s1) && L.WellFormed(c, s1.lock) && Enabled(c, s1, step) && !Unsafe(step)
    ensures Base(c, Do(c, s1, step)) && Leads(c, s, Do(c, s1, step))
  {
    var path :| LeadsOver(c, s, path, s1);
    OneMoreStep(c, s, path, s1, step);
  }

  lemma {:induction false} UnusedId(used: set<TicketId>) returns (id: TicketId)
    ensures forall t :: t in used ==> t < id
  {
    id := 0;
    if t: TicketId :| t in used {
      id := UnusedId(used - {t});
      assert forall u :: u in used ==> u == t || u in used - {t};
      id := if t < id then id else t + 1;
    }
  }

  lemma Acquire(c: L.Cluster, s0: State, s: State) returns (s': State, r: Req)
    requires Leads(c, s0, s) && Idle(c, s)
    ensures Leads(c, s0, s') && Inside(s', r) && StageOf(s', r) == Listing({})
    ensures R.Flows(c, s'.lock) && s' == s.(lock := s'.lock)
  {
    var k := UnusedSerial(s.lock.phase.Keys + s.stages.Keys);
    r := Req(c.master, k);
    assert r !in s.lock.phase.Keys + s.stages.Keys;
    s' := Do(c, s, Lock(L.LocalAcquire(r)));
    AfterStep(c, s0, s, Lock(L.LocalAcquire(r)));
    assert L.Ok(c, s'.lock, r);
  }

  lemma InsertChosen(c: L.Cluster, s0: State, s: State, r: Req, e: Engineer)
    returns (s': State, id: TicketId)
    requires Leads(c, s0, s) && Inside(s, r) && StageOf(s, r) == Chosen(e)
    ensures Leads(c, s0, s') && s'.lock == s.lock && StageOf(s', r) == Inserted(e)
    ensures id !in s.tickets && s'.tickets == s.tickets[id := Ticket(e, false, true, false)]
    ensures s'.available == s.available
  {
    id := UnusedId(s.tickets.Keys);
    assert id !in s.tickets.Keys;
    s' := Do(c, s, Insert(r, id));
    AfterStep(c, s0, s, Insert(r, id));
  }

  /** A caller inside gets a ticket inserted for any engineer that it relies on. */
  lemma InsertReliedOn(c: L.Cluster, s0: State, s: State, r: Req, e: Engineer)
    returns (s': State, id: TicketId)
    requires Leads(c, s0, s) && Inside(s, r) && e in Relies(StageOf(s, r))
    ensures Leads(c, s0, s') && s'.lock == s.lock && StageOf(s', r) == Inserted(e)
    ensures id !in s.tickets && s'.tickets == s.tickets[id := Ticket(e, false, true, false)]
    ensures s'.available == s.available
  {
    var s1 := s;
    if StageOf(s, r).Listing? {
      s1 := Do(c, s, Choose(r, e));
      AfterStep(c, s0, s, Choose(r, e));
    }
    s', id := InsertChosen(c, s0, s1, r, e);
  }

  /** A caller that has done nothing yet can rely on any engineer whose row says available. */
  lemma InsertOne(c: L.Cluster, s0: State, s: State, r: Req, e: Engineer)
    returns (s': State, id: TicketId)
    requires Leads(c, s0, s) && Inside(s, r) && StageOf(s, r) == Listing({}) && e in s.available
    ensures Leads(c, s0, s') && s'.lock == s.lock && StageOf(s', r) == Inserted(e)
    ensures id !in s.tickets && s'.tickets == s.tickets[id := Ticket(e, false, true, false)]
    ensures s'.available == s.available
  {
    var s1 := Do(c, s, Read(r, e));
    AfterStep(c, s0, s, Read(r, e));
    s', id := InsertReliedOn(c, s0, s1, r, e);
  }

  /** A caller inside comes to its end: it quits, or marks the engineer it has inserted a ticket for. */
  lemma FinishWork(c: L.Cluster, s0: State, s: State, r: Req)
    returns (s': State)
    requires Leads(c, s0, s) && Inside(s, r)
    ensures Leads(c, s0, s') && Inside(s', r) && StageOf(s', r) == Finished && s'.lock == s.lock
    ensures s'.tickets == s.tickets && s'.available == s.available - ToMark(StageOf(s, r))
  {
    s' := s;
    if StageOf(s, r) != Finished {
      var step := if StageOf(s, r).Inserted? then ApplyMark(r) else Quit(r);
      s' := Do(c, s, step);
      AfterStep(c, s0, s, step);
    }
  }

  /** Only the lock changes, and the current caller has nothing to mark. */
  ghost predicate LockOnly(c: L.Cluster, s: State, s': State) {
    s' == s.(lock := s'.lock) && L.WellFormed(c, s'.lock) && ToMark(Current(c, s')) == {}
  }

  /** The end of the turn of a caller that has come to its end, wherever it is. */
  lemma Leave(c: L.Cluster, s0: State, s: State, r: Req) returns (s': State)
    requires Leads(c, s0, s) && R.Flows(c, s.lock) && L.Arbiter(c, s.lock).holder == Some(r)
    requires R.Ending(s.lock, r) && (Inside(s, r) ==> StageOf(s, r) == Finished)
    ensures Leads(c, s0, s') && R.Flows(c, s'.lock) && LockOnly(c, s, s')
    ensures Turns(c, s') < Turns(c, s)
  {
    s' := s;
    if Inside(s, r) && r.owner != c.master {
      s' := Do(c, s, Lock(L.RemoteRelease(r)));
      AfterStep(c, s0, s, Lock(L.RemoteRelease(r)));
      R.FlowsDuringTurn(c, s.lock, L.RemoteRelease(r));
      CurrentAfterLockStep(c, s, L.RemoteRelease(r));
    }
    var last := if Inside(s, r) && r.owner == c.master then L.LocalRelease(r) else L.DeliverRelease(r);
    s' := LastStep(c, s0, s', last);
  }

  lemma LastStep(c: L.Cluster, s0: State, s: State, step: L.Step)
    returns (s': State)
    requires Leads(c, s0, s) && R.Flows(c, s.lock) && Liv.EndsTurn(step) && L.Enabled(c, s.lock, step)
    requires Current(c, s) == Finished
    requires Releases(step) ==> StageOf(s, step.req) == Finished
    ensures Leads(c, s0, s') && R.Flows(c, s'.lock) && LockOnly(c, s, s')
    ensures Turns(c, s') < Turns(c, s)
  {
    s' := Do(c, s, Lock(step));
    AfterStep(c, s0, s, Lock(step));
    R.FlowsAfterTurn(c, s.lock, step);
    Liv.ReleaseIsHolders(c, s.lock, step);
    CurrentAfterLockStep(c, s, step);
  }

  /** The turns still to be taken: the current one and those of the queue. */
  function Turns(c: L.Cluster, s: State): nat
    requires c.master in s.lock.engines
  {
    var e := L.Arbiter(c, s.lock);
    |e.queue| + if e.holder.Some? then 1 else 0
  }

  /** One step of a granted caller towards the critical section. */
  lemma MovesInside(c: L.Cluster, s: State, r: Req)
    requires Base(c, s) && R.Flows(c, s.lock) && R.Granted(c, s.lock, r)
    ensures Enabled(c, s, Lock(R.TowardsInside(s.lock, r)))
    ensures var s' := Do(c, s, Lock(R.TowardsInside(s.lock, r)));
      && LockOnly(c, s, s') && R.Flows(c, s'.lock) && Turns(c, s') == Turns(c, s)
      && (Inside(s', r) || (R.Granted(c, s'.lock, r) && R.Distance(s'.lock, r) < R.Distance(s.lock, r)))
  {
    R.StepTowardsInside(c, s.lock, r);
    CurrentAfterLockStep(c, s, R.TowardsInside(s.lock, r));
    assert L.Ok(c, s.lock, r) && Current(c, s) == Finished;
  }

  lemma GetsInside(c: L.Cluster, s0: State, s: State, r: Req)
    returns (s': State)
    requires Leads(c, s0, s) && R.Flows(c, s.lock) && R.Granted(c, s.lock, r)
    ensures Leads(c, s0, s') && R.Flows(c, s'.lock) && LockOnly(c, s, s') && Turns(c, s') == Turns(c, s)
    ensures Inside(s', r)
    decreases R.Distance(s.lock, r)
  {
    MovesInside(c, s, r);
    s' := Do(c, s, Lock(R.TowardsInside(s.lock, r)));
    AfterStep(c, s0, s, Lock(R.TowardsInside(s.lock, r)));
    if !Inside(s', r) {
      s' := GetsInside(c, s0, s', r);
    }
  }

  /** The holder comes to its end and leaves; a caller in the queue that gets its turn finds nothing done yet. */
  lemma EndOneTurn(c: L.Cluster, s0: State, s: State) returns (s': State)
    requires Leads(c, s0, s) && R.Flows(c, s.lock) && L.Arbiter(c, s.lock).holder.Some?
    ensures Leads(c, s0, s') && R.Flows(c, s'.lock) && Turns(c, s') < Turns(c, s)
    ensures s'.tickets == s.tickets && s'.available == s.available - ToMark(Current(c, s))
    ensures ToMark(Current(c, s')) == {}
  {
    var r := L.Arbiter(c, s.lock).holder.value;
    assert L.Ok(c, s.lock, r);
    var s1 := s;
    if !R.Ending(s.lock, r) {
      s1 := GetsInside(c, s0, s, r);
    }
    s' := EndEndingTurn(c, s0, s1, r);
  }

  lemma EndEndingTurn(c: L.Cluster, s0: State, s: State, r: Req)
    returns (s': State)
    requires Leads(c, s0, s) && R.Flows(c, s.lock) && R.Ending(s.lock, r)
    ensures Leads(c, s0, s') && R.Flows(c, s'.lock) && Turns(c, s') < Turns(c, s)
    ensures s'.tickets == s.tickets && s'.available == s.available - ToMark(Current(c, s))
    ensures ToMark(Current(c, s')) == {}
  {
    assert L.Ok(c, s.lock, r);
    var s1 := s;
    if Inside(s, r) {
      InsideIsCurrent(c, s, r);
      s1 := FinishWork(c, s0, s, r);
    }
    s' := Leave(c, s0, s1, r);
  }

  /** If the current turn can end and nobody in the queue has given up, the cluster can become idle. */
  lemma {:induction false} Drain(c: L.Cluster, s0: State, s: State)
    returns (s': State)
    requires Leads(c, s0, s) && R.Flows(c, s.lock)
    ensures Leads(c, s0, s') && Idle(c, s')
    ensures s'.tickets == s.tickets && s'.available == s.available - ToMark(Current(c, s))
    decreases Turns(c, s)
  {
    s' := s;
    if L.Arbiter(c, s.lock).holder.Some? {
      s' := EndOneTurn(c, s0, s);
      s' := Drain(c, s0, s');
    }
  }

  /** A whole raise on an idle cluster, for any engineer whose row says available. */
  lemma RaiseOne(c: L.Cluster, s0: State, s: State, e: Engineer)
    returns (s': State, id: TicketId)
    requires Leads(c, s0, s) && Idle(c, s) && e in s.available
    ensures Leads(c, s0, s') && Idle(c, s')
    ensures id !in s.tickets && s'.tickets == s.tickets[id := Ticket(e, false, true, false)]
    ensures s'.available == s.available - {e}
  {
    var s1, s2, r;
    s1, r := Acquire(c, s0, s);
    s2, id := InsertOne(c, s0, s1, r, e);
    InsideIsCurrent(c, s2, r);
    s' := Drain(c, s0, s2);
  }

  /** A ticket is closed, and the close reaches its engineer's branch. */
  lemma CloseAndFree(c: L.Cluster, s0: State, s: State, id: TicketId)
    returns (s': State)
    requires Leads(c, s0, s) && Open(s, id)
    ensures Leads(c, s0, s') && s'.lock == s.lock && s'.stages == s.stages
    ensures s'.tickets == s.tickets[id := s.tickets[id].(closing := true, freed := true)]
    ensures s'.available == s.available + {s.tickets[id].eng}
  {
    var s1 := Do(c, s, CommitClose(id));
    AfterStep(c, s0, s, CommitClose(id));
    s' := Do(c, s1, FreeEngineer(id));
    AfterStep(c, s0, s1, FreeEngineer(id));
  }
}
