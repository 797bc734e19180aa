/**
 Exactly when the ticket workflow can book an engineer twice.

 TicketWorkflow proves that safe runs never do.  Here the conditions are two-sided: which states let a safe
 continuation book somebody twice, and which unsafe steps lead to such a state.
 */
module DoubleBooking {
  import opened Options
  import L = LockProtocol
  import Liv = LockLiveness
  import R = LockRecovery
  import opened LockEngine
  import opened TicketPaths
  import opened TicketWorkflow

  // ---- Which states let somebody be booked twice ---------------------------------------------------

  /** Safe steps alone can give some engineer two open tickets. */
  ghost predicate Bookable(c: L.Cluster, s: State) {
    exists s' :: Leads(c, s, s') && !NoDoubleBooking(s')
  }

  /** A busy engineer's row says available, or two busy tickets name the same engineer. */
  ghost predicate Exposed(s: State) {
    (exists t :: Busy(s, t) && s.tickets[t].eng in s.available) || !OneTicketEach(s)
  }

  lemma TwoOpen(s: State, t: TicketId, u: TicketId)
    requires t != u && Open(s, t) && Open(s, u) && s.tickets[t].eng == s.tickets[u].eng
    ensures !NoDoubleBooking(s)
  {
  }

  /** One more ticket for an available engineer who is busy, or two if the first ticket is being closed. */
  lemma BooksBusyEngineer(c: L.Cluster, s0: State, s: State, t: TicketId)
    returns (s': State)
    requires Leads(c, s0, s) && Idle(c, s) && Busy(s, t) && s.tickets[t].eng in s.available
    ensures Leads(c, s0, s') && !NoDoubleBooking(s')
  {
    var e, u, v := s.tickets[t].eng, 0, 0;
    s', u := RaiseOne(c, s0, s, e);
    if Open(s, t) {
      TwoOpen(s', t, u);
    } else {
      var s2 := Do(c, s', FreeEngineer(t));
      AfterStep(c, s0, s', FreeEngineer(t));
      s', v := RaiseOne(c, s0, s2, e);
      TwoOpen(s', u, v);
    }
  }

  /** Of two tickets of one engineer both are open, or freeing one makes the other's engineer available. */
  lemma BooksSharedEngineer(c: L.Cluster, s0: State, s: State, t: TicketId, u: TicketId)
    returns (s': State)
    requires Leads(c, s0, s) && Idle(c, s)
    requires t != u && Busy(s, t) && Busy(s, u) && s.tickets[t].eng == s.tickets[u].eng
    ensures Leads(c, s0, s') && !NoDoubleBooking(s')
  {
    if Open(s, t) && Open(s, u) {
      s' := s;
      TwoOpen(s, t, u);
    } else {
      var x, y := if Open(s, t) then u else t, if Open(s, t) then t else u;
      var s1 := Do(c, s, FreeEngineer(x));
      AfterStep(c, s0, s, FreeEngineer(x));
      s' := BooksBusyEngineer(c, s0, s1, y);
    }
  }

  lemma BooksExposed(c: L.Cluster, s0: State, s: State) returns (s': State)
    requires Leads(c, s0, s) && Idle(c, s) && Exposed(s)
    ensures Leads(c, s0, s') && !NoDoubleBooking(s')
  {
    if t :| Busy(s, t) && s.tickets[t].eng in s.available {
      s' := BooksBusyEngineer(c, s0, s, t);
    } else {
      var t, u :| Busy(s, t) && Busy(s, u) && s.tickets[t].eng == s.tickets[u].eng && t != u;
      s' := BooksSharedEngineer(c, s0, s, t, u);
    }
  }

  lemma {:induction false} PathKeepsCore(c: L.Cluster, path: seq<State>, k: nat)
    requires Path(c, path, Safe) && Core(c, path[0]) && k < |path|
    ensures Core(c, path[k])
  {
    if k > 0 {
      PathKeepsCore(c, path, k - 1);
      assert StepAt(c, path, k - 1, Safe);
      NextCore(c, path[k - 1], path[k]);
    }
  }

  lemma LeadsKeepsCore(c: L.Cluster, s: State, s': State)
    requires Core(c, s) && Leads(c, s, s')
    ensures Core(c, s')
  {
    var path :| LeadsOver(c, s, path, s');
    PathKeepsCore(c, path, |path| - 1);
  }

  lemma NextCore(c: L.Cluster, s: State, s': State)
    requires Core(c, s) && Next(c, s, s', Safe)
    ensures Core(c, s')
  {
    var step :| Enabled(c, s, step) && Allowed(step, Safe) && s' == Do(c, s, step);
    StepCore(c, s, step);
  }

  lemma CoreIsNotBookable(c: L.Cluster, s: State)
    requires Core(c, s)
    ensures !Bookable(c, s)
  {
    forall s' | Leads(c, s, s')
      ensures NoDoubleBooking(s')
    {
      LeadsKeepsCore(c, s, s');
    }
  }

  lemma IdleMeansFinished(c: L.Cluster, s: State)
    requires Base(c, s) && Idle(c, s)
    ensures Current(c, s) == Finished && (Exposed(s) <==> !Core(c, s))
  {
  }

  /** Two tickets of one engineer, or one of an engineer who is not to be marked, are still there when all have left. */
  lemma StillExposed(c: L.Cluster, s: State, s': State)
    requires L.WellFormed(c, s.lock)
    requires s'.tickets == s.tickets && s'.available == s.available - ToMark(Current(c, s))
    requires !OneTicketEach(s) ||
      exists t :: Busy(s, t) && s.tickets[t].eng in s.available && Current(c, s) != Inserted(s.tickets[t].eng)
    ensures Exposed(s')
  {
    assert forall t :: Busy(s', t) == Busy(s, t);
    if t :| Busy(s, t) && s.tickets[t].eng in s.available && Current(c, s) != Inserted(s.tickets[t].eng) {
      assert Busy(s', t) && s'.tickets[t].eng in s'.available;
    }
  }

  lemma BooksAfterAllLeft(c: L.Cluster, s0: State, s: State)
    returns (s': State)
    requires Leads(c, s0, s) && R.Flows(c, s.lock)
    requires !OneTicketEach(s) ||
      exists t :: Busy(s, t) && s.tickets[t].eng in s.available && Current(c, s) != Inserted(s.tickets[t].eng)
    ensures Leads(c, s0, s') && !NoDoubleBooking(s')
  {
    s' := Drain(c, s0, s);
    StillExposed(c, s, s');
    s' := BooksExposed(c, s0, s');
  }

  /** The current caller relies on a busy engineer and gives him another ticket. */
  lemma BooksReliedOn(c: L.Cluster, s0: State, s: State, t: TicketId)
    returns (s': State)
    requires Leads(c, s0, s) && R.Flows(c, s.lock)
    requires Busy(s, t) && s.tickets[t].eng in Relies(Current(c, s))
    ensures Leads(c, s0, s') && !NoDoubleBooking(s')
  {
    var r, id := L.Arbiter(c, s.lock).holder.value, 0;
    s', id := InsertReliedOn(c, s0, s, r, s.tickets[t].eng);
    assert Busy(s', t) && Busy(s', id) && t != id;
    s' := BooksAfterAllLeft(c, s0, s');
  }

  lemma BrokenCoreIsBookable(c: L.Cluster, s: State)
    requires Base(c, s) && R.Flows(c, s.lock) && !Core(c, s)
    ensures Bookable(c, s)
  {
    var s';
    Stay(c, s);
    if t :| Busy(s, t) && s.tickets[t].eng in Relies(Current(c, s)) {
      s' := BooksReliedOn(c, s, s, t);
    } else {
      s' := BooksAfterAllLeft(c, s, s);
    }
    assert Leads(c, s, s') && !NoDoubleBooking(s');
  }

  /**
   From any state, however reached, in which the current turn can end and nobody in the queue has given up: safe
   steps can book somebody twice exactly if the core is broken.
   */
  lemma BookableIffCoreIsBroken(c: L.Cluster, s: State)
    requires Base(c, s) && R.Flows(c, s.lock)
    ensures Bookable(c, s) <==> !Core(c, s)
  {
    if Core(c, s) {
      CoreIsNotBookable(c, s);
    } else {
      BrokenCoreIsBookable(c, s);
    }
  }

  /** When the lock is free that means: a busy engineer's row says available or two busy tickets share one. */
  lemma BookableIffExposed(c: L.Cluster, s: State)
    requires Base(c, s) && Idle(c, s)
    ensures Bookable(c, s) <==> Exposed(s)
  {
    IdleMeansFinished(c, s);
    BookableIffCoreIsBroken(c, s);
  }

  // ---- Which unsafe steps lead there ---------------------------------------------------------------

  /** An unsafe step does no harm only by luck. */
  ghost predicate Harmless(c: L.Cluster, s: State, step: Step)
    requires L.WellFormed(c, s.lock) && Enabled(c, s, step) && Unsafe(step)
  {
    match step
    case MissMark(r) => StageOf(s, r).eng !in s.available || Unbooked(s, StageOf(s, r).eng)
    case StrayClose(e) => Unbooked(s, e) || Current(c, s) == Inserted(e)
    case Reassign(id, e) =>
      Current(c, s) == Inserted(e) && forall t :: Busy(s, t) && t != id ==> s.tickets[t].eng != e
    case _ => true
  }

  lemma UnsafeStepsExactly(c: L.Cluster, s: State, step: Step)
    requires Core(c, s) && Enabled(c, s, step) && Unsafe(step)
    ensures Core(c, Do(c, s, step)) <==> Harmless(c, s, step)
  {
    StepBase(c, s, step);
    var s' := Do(c, s, step);
    assert forall t :: Busy(s', t) == Busy(s, t);
    if step.MissMark? {
      CallerIsCurrent(c, s, step);
    } else if step.Reassign? {
      ReassignExactly(c, s, step.id, step.eng);
    }
  }

  lemma ReassignExactly(c: L.Cluster, s: State, id: TicketId, e: Engineer)
    requires Core(c, s) && Enabled(c, s, Reassign(id, e))
    ensures var s' := Do(c, s, Reassign(id, e));
      OneTicketEach(s') && AvailableOk(s', Current(c, s)) <==> Harmless(c, s, Reassign(id, e))
  {
    var s' := Do(c, s, Reassign(id, e));
    assert Busy(s', id) && s'.tickets[id].eng == e;
    assert forall t :: Busy(s', t) == Busy(s, t);
    assert forall t :: Busy(s, t) && t != id ==> s'.tickets[t] == s.tickets[t];
  }

  /** An unsafe step out of the core makes a double booking possible exactly if it does harm. */
  lemma UnsafeStepBooksExactly(c: L.Cluster, s: State, step: Step)
    requires Core(c, s) && R.Flows(c, s.lock) && Enabled(c, s, step) && Unsafe(step)
    ensures Bookable(c, Do(c, s, step)) <==> !Harmless(c, s, step)
  {
    StepBase(c, s, step);
    UnsafeStepsExactly(c, s, step);
    BookableIffCoreIsBroken(c, Do(c, s, step));
  }

  /** A mark that is missed does, at any node, unless the ticket was freed or the row is unavailable meanwhile. */
  lemma MissedMarkDoubleBooks(c: L.Cluster, s: State, r: Req)
    requires Core(c, s) && R.Flows(c, s.lock) && Enabled(c, s, MissMark(r))
    ensures Bookable(c, Do(c, s, MissMark(r))) <==>
      StageOf(s, r).eng in s.available && !Unbooked(s, StageOf(s, r).eng)
  {
    UnsafeStepBooksExactly(c, s, MissMark(r));
  }

  /** A close that names an engineer without closing his ticket does if he has one, unless he is just being marked. */
  lemma StrayCloseDoubleBooks(c: L.Cluster, s: State, e: Engineer)
    requires Core(c, s) && R.Flows(c, s.lock) && Enabled(c, s, StrayClose(e))
    ensures Bookable(c, Do(c, s, StrayClose(e))) <==> !Unbooked(s, e) && Current(c, s) != Inserted(e)
  {
    UnsafeStepBooksExactly(c, s, StrayClose(e));
  }

  /** A redistribution does, unless its engineer is just being marked for a ticket that was freed meanwhile. */
  lemma ReassignDoubleBooks(c: L.Cluster, s: State, id: TicketId, e: Engineer)
    requires Core(c, s) && R.Flows(c, s.lock) && Enabled(c, s, Reassign(id, e))
    ensures Bookable(c, Do(c, s, Reassign(id, e))) <==>
      Current(c, s) != Inserted(e) || exists t :: Busy(s, t) && t != id && s.tickets[t].eng == e
  {
    UnsafeStepBooksExactly(c, s, Reassign(id, e));
  }

  // ---- They are reached ----------------------------------------------------------------------------

  lemma NextBase(c: L.Cluster, s: State, s': State, mode: Mode)
    requires Base(c, s) && Next(c, s, s', mode)
    ensures Base(c, s')
  {
    var step :| Enabled(c, s, step) && Allowed(step, mode) && s' == Do(c, s, step);
    StepBase(c, s, step);
  }

  /** Base holds in every reachable state, whatever steps were taken. */
  lemma {:induction false} ReachableBase(c: L.Cluster, run: seq<State>, k: nat)
    requires Behaviour(c, run, Anything) && k < |run|
    ensures Base(c, run[k])
  {
    if k == 0 {
      R.InitTracked(c, run[0].lock);
    } else {
      ReachableBase(c, run, k - 1);
      assert StepAt(c, run, k - 1, Anything);
      NextBase(c, run[k - 1], run[k], Anything);
    }
  }

  /** A safe behaviour that ends with the lock free, an open ticket of one engineer and another one available. */
  lemma OneTicketRaised(c: L.Cluster, e: Engineer, f: Engineer) returns (run: seq<State>, id: TicketId)
    requires c.Valid() && e != f
    ensures Behaviour(c, run, Safe)
    ensures var s := run[|run| - 1];
      Inv(c, s) && Idle(c, s) && Open(s, id) && s.tickets[id].eng == e && f in s.available
  {
    var lock := L.State(map n | n in c.nodes :: EMPTY, multiset{}, map[], multiset{}, multiset{}, {}, multiset{});
    var s0 := State(lock, map[], {}, {}, map[], multiset{});
    R.InitTracked(c, lock);
    Stay(c, s0);
    var s1 := Do(c, s0, Hire(e));
    AfterStep(c, s0, s0, Hire(e));
    var s2 := Do(c, s1, Hire(f));
    AfterStep(c, s0, s1, Hire(f));
    var s3;
    s3, id := RaiseOne(c, s0, s2, e);
    run :| LeadsOver(c, s0, run, s3);
    ReachableInv(c, run, |run| - 1);
  }

  /** Stray closes and redistributions that do harm are reached in safe behaviours. */
  lemma HarmIsReached(c: L.Cluster, e: Engineer, f: Engineer) returns (run: seq<State>, id: TicketId)
    requires c.Valid() && e != f
    ensures Behaviour(c, run, Safe) && Core(c, run[|run| - 1])
    ensures var s := run[|run| - 1];
      && Enabled(c, s, StrayClose(e)) && Bookable(c, Do(c, s, StrayClose(e)))
      && Enabled(c, s, Reassign(id, f)) && Bookable(c, Do(c, s, Reassign(id, f)))
  {
    run, id := OneTicketRaised(c, e, f);
    var s := run[|run| - 1];
    assert Busy(s, id);
    StrayCloseDoubleBooks(c, s, e);
    ReassignDoubleBooks(c, s, id, f);
  }

  /** So are missed marks: from every safe state in which the lock is free and an engineer is available. */
  lemma HarmfulMissIsReached(c: L.Cluster, s: State, e: Engineer) returns (s': State, r: Req)
    requires Inv(c, s) && Idle(c, s) && e in s.available
    ensures Leads(c, s, s') && Core(c, s') && Enabled(c, s', MissMark(r)) && Bookable(c, Do(c, s', MissMark(r)))
  {
    var s1, id;
    Stay(c, s);
    s1, r := Acquire(c, s, s);
    s', id := InsertOne(c, s, s1, r, e);
    assert Busy(s', id);
    LeadsKeepsCore(c, s, s');
    MissedMarkDoubleBooks(c, s', r);
  }

  // ---- When the lock is stuck ----------------------------------------------------------------------

  /** A step of a workflow whose lock is stuck opens no ticket. */
  lemma NoTicketWhenStuck(c: L.Cluster, s: State, step: Step, r: Req)
    requires Base(c, s) && Liv.Stuck(c, s.lock, r) && Enabled(c, s, step) && !Unsafe(step)
    ensures L.WellFormed(c, s.lock) && Liv.Stuck(c, Do(c, s, step).lock, r)
    ensures forall t :: Open(Do(c, s, step), t) ==> Open(s, t) && Do(c, s, step).tickets[t].eng == s.tickets[t].eng
  {
    if step.Lock? {
      Liv.StuckStep(c, s.lock, step.step, r);
    } else if step.Insert? {
      Liv.StuckMeansNobodyHolds(c, s.lock, r, step.req);
    }
  }

  lemma NextWhenStuck(c: L.Cluster, s: State, s': State, r: Req)
    requires Base(c, s) && Liv.Stuck(c, s.lock, r) && Next(c, s, s', Safe) && NoDoubleBooking(s)
    ensures Base(c, s') && Liv.Stuck(c, s'.lock, r) && NoDoubleBooking(s')
  {
    var step :| Enabled(c, s, step) && Allowed(step, Safe) && s' == Do(c, s, step);
    StepBase(c, s, step);
    NoTicketWhenStuck(c, s, step, r);
  }

  lemma {:induction false} NoDoubleBookingWhenStuck(c: L.Cluster, path: seq<State>, k: nat, r: Req)
    requires Path(c, path, Safe) && k < |path|
    requires Base(c, path[0]) && Liv.Stuck(c, path[0].lock, r) && NoDoubleBooking(path[0])
    ensures Base(c, path[k]) && Liv.Stuck(c, path[k].lock, r) && NoDoubleBooking(path[k])
  {
    if k > 0 {
      NoDoubleBookingWhenStuck(c, path, k - 1, r);
      assert StepAt(c, path, k - 1, Safe);
      NextWhenStuck(c, path[k - 1], path[k], r);
    }
  }

  /** With the lock stuck nothing more can go wrong than has: the core may be broken and nobody booked twice. */
  lemma BookableWhenStuck(c: L.Cluster, s: State, r: Req)
    requires Base(c, s) && Liv.Stuck(c, s.lock, r)
    ensures Bookable(c, s) <==> !NoDoubleBooking(s)
  {
    if NoDoubleBooking(s) {
      forall s' | Leads(c, s, s')
        ensures NoDoubleBooking(s')
      {
        var path :| LeadsOver(c, s, path, s');
        NoDoubleBookingWhenStuck(c, path, |path| - 1, r);
      }
    } else {
      Stay(c, s);
      assert Leads(c, s, s);
    }
  }
}
