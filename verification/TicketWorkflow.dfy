/**
 The ticket workflow of internal/service/ticket_service.go on top of the lock protocol.

 raiseTicket acquires the lock, reads the engineers' rows (each at its own moment), chooses one that
 was available, commits the ticket, marks the engineer unavailable and releases.  CloseTicket takes no
 lock: its commit reaches the ticket's branch and the engineer's branch at two independent moments.
 */
module TicketWorkflow {
  import opened Options
  import L = LockProtocol
  import R = LockRecovery
  import opened LockEngine

  type Engineer = int
  type TicketId = int

  /** How far the caller that holds a request has come; one that has done nothing yet is `Listing({})`. */
  datatype Stage =
    | Listing(seen: set<Engineer>)  // engineers whose rows were read while available
    | Chosen(eng: Engineer)
    | Inserted(eng: Engineer)       // the ticket exists; the engineer's row still says available
    | Finished

  /**
   `closing`: CLOSE_TICKET has been committed for this ticket.  `rowOpen`: the row at its branch still
   says ABIERTO.  `freed`: the close has made the engineer's row available again.
   */
  datatype Ticket = Ticket(eng: Engineer, closing: bool, rowOpen: bool, freed: bool)

  /** `available` are the engineers whose row says disponible = 1; `late` the marks not applied in time. */
  datatype State = State(
    lock: L.State,
    stages: map<Req, Stage>,
    staff: set<Engineer>,
    available: set<Engineer>,
    tickets: map<TicketId, Ticket>,
    late: multiset<Engineer>)

  datatype Step =
    | Lock(step: L.Step)
    | Read(req: Req, eng: Engineer)
    | Choose(req: Req, eng: Engineer)
    | Insert(req: Req, id: TicketId)
    | ApplyMark(req: Req)
    | MissMark(req: Req)
    | Quit(req: Req)
    | CommitClose(id: TicketId)
    | CloseRow(id: TicketId)
    | FreeEngineer(id: TicketId)
    | Hire(eng: Engineer)
    | LateMark(eng: Engineer)
    | StrayClose(eng: Engineer)
    | Reassign(id: TicketId, eng: Engineer)

  function StageOf(s: State, r: Req): Stage {
    if r in s.stages then s.stages[r] else Listing({})
  }

  predicate Inside(s: State, r: Req) { L.Ph(s.lock, r) == L.Holding }

  predicate Releases(step: L.Step) { step.LocalRelease? || step.RemoteRelease? }

  /**
   The steps that the design does not defend against.  `MissMark` is the warning branch of raiseTicket:
   the proposal failed, or the release came before the mark was applied at the engineer's branch (it may
   still be applied later).  `StrayClose` is a close that names an engineer other than that of an open
   ticket.  `Reassign` is a redistribution, which leaves its engineer's row available.
   */
  predicate Unsafe(step: Step) { step.MissMark? || step.StrayClose? || step.Reassign? }

  predicate Enabled(c: L.Cluster, s: State, step: Step) {
    match step
    case Lock(ls) => L.Enabled(c, s.lock, ls) && (Releases(ls) ==> StageOf(s, ls.req) == Finished)
    case Read(r, e) => Inside(s, r) && StageOf(s, r).Listing? && e in s.staff
    case Choose(r, e) => Inside(s, r) && StageOf(s, r).Listing? && e in StageOf(s, r).seen
    case Insert(r, id) => Inside(s, r) && StageOf(s, r).Chosen? && id !in s.tickets
    case ApplyMark(r) => Inside(s, r) && StageOf(s, r).Inserted?
    case MissMark(r) => Inside(s, r) && StageOf(s, r).Inserted?
    case Quit(r) => Inside(s, r) && (StageOf(s, r).Listing? || StageOf(s, r).Chosen?)
    case CommitClose(id) => id in s.tickets && !s.tickets[id].closing
    case CloseRow(id) => id in s.tickets && s.tickets[id].closing && s.tickets[id].rowOpen
    case FreeEngineer(id) => id in s.tickets && s.tickets[id].closing && !s.tickets[id].freed
    case Hire(e) => e !in s.staff
    case LateMark(e) => e in s.late
    case StrayClose(e) => e in s.staff
    case Reassign(id, e) => id in s.tickets && !s.tickets[id].closing && e in s.available
  }

  function Do(c: L.Cluster, s: State, step: Step): State
    requires c.master in s.lock.engines && c.nodes <= s.lock.engines.Keys
    requires Enabled(c, s, step)
  {
    match step
    case Lock(ls) => s.(lock := L.Do(c, s.lock, ls))
    case Read(r, e) =>
      if e in s.available then s.(stages := s.stages[r := Listing(StageOf(s, r).seen + {e})]) else s
    case Choose(r, e) => s.(stages := s.stages[r := Chosen(e)])
    case Insert(r, id) =>
      var e := StageOf(s, r).eng;
      s.(stages := s.stages[r := Inserted(e)], tickets := s.tickets[id := Ticket(e, false, true, false)])
    case ApplyMark(r) =>
      s.(stages := s.stages[r := Finished], available := s.available - {StageOf(s, r).eng})
    case MissMark(r) =>
      s.(stages := s.stages[r := Finished], late := s.late + multiset{StageOf(s, r).eng})
    case Quit(r) => s.(stages := s.stages[r := Finished])
    case CommitClose(id) => s.(tickets := s.tickets[id := s.tickets[id].(closing := true)])
    case CloseRow(id) => s.(tickets := s.tickets[id := s.tickets[id].(rowOpen := false)])
    case FreeEngineer(id) =>
      s.(tickets := s.tickets[id := s.tickets[id].(freed := true)], available := s.available + {s.tickets[id].eng})
    case Hire(e) => s.(staff := s.staff + {e}, available := s.available + {e})
    case LateMark(e) => s.(late := s.late - multiset{e}, available := s.available - {e})
    case StrayClose(e) => s.(available := s.available + {e})
    case Reassign(id, e) => s.(tickets := s.tickets[id := s.tickets[id].(eng := e)])
  }

  ghost predicate Init(c: L.Cluster, s: State) {
    L.Init(c, s.lock) && s.stages == map[] && s.staff == s.available == {} && s.tickets == map[] && s.late == multiset{}
  }

  /** Which steps a run may take: all, or the safe ones. */
  datatype Mode = Anything | Safe

  predicate Allowed(step: Step, mode: Mode) { mode == Safe ==> !Unsafe(step) }

  ghost predicate Next(c: L.Cluster, s: State, s': State, mode: Mode) {
    L.WellFormed(c, s.lock) && exists step :: Enabled(c, s, step) && Allowed(step, mode) && s' == Do(c, s, step)
  }

  ghost predicate StepAt(c: L.Cluster, run: seq<State>, i: nat, mode: Mode)
    requires i + 1 < |run|
  {
    Next(c, run[i], run[i + 1], mode)
  }

  /** A run that starts anywhere. */
  ghost predicate Path(c: L.Cluster, run: seq<State>, mode: Mode) {
    run != [] && forall i :: 0 <= i < |run| - 1 ==> StepAt(c, run, i, mode)
  }

  ghost predicate Behaviour(c: L.Cluster, run: seq<State>, mode: Mode) {
    c.Valid() && Path(c, run, mode) && Init(c, run[0])
  }

  predicate Open(s: State, t: TicketId) { t in s.tickets && !s.tickets[t].closing }

  /** No engineer has two tickets that are open, that is, not closed and with no close committed. */
  ghost predicate NoDoubleBooking(s: State) {
    forall t, u :: Open(s, t) && Open(s, u) && s.tickets[t].eng == s.tickets[u].eng ==> t == u
  }

  // ---- The inductive invariant --------------------------------------------------------------------

  /** A ticket keeps its engineer busy until its close has freed the engineer's row. */
  predicate Busy(s: State, t: TicketId) { t in s.tickets && !s.tickets[t].freed }

  /** No ticket keeps the engineer busy. */
  ghost predicate Unbooked(s: State, e: Engineer) {
    forall t :: Busy(s, t) ==> s.tickets[t].eng != e
  }

  /** The stage of the one caller inside the critical section. */
  function Current(c: L.Cluster, s: State): Stage
    requires c.master in s.lock.engines
  {
    var holder := L.Arbiter(c, s.lock).holder;
    if holder.Some? && Inside(s, holder.value) then StageOf(s, holder.value) else Finished
  }

  /** The engineers whose rows that caller relies on. */
  function Relies(st: Stage): set<Engineer> {
    match st
    case Listing(seen) => seen
    case Chosen(eng) => {eng}
    case _ => {}
  }

  ghost predicate OnlyInside(s: State) {
    forall r :: r in s.stages && s.stages[r] != Listing({}) && s.stages[r] != Finished ==> Inside(s, r)
  }

  /** What every step keeps, the unsafe ones included. */
  ghost predicate Base(c: L.Cluster, s: State) {
    && R.AllTracked(c, s.lock)
    && OnlyInside(s)
    && (forall t :: Open(s, t) ==> Busy(s, t) && s.tickets[t].rowOpen)
    && (forall t :: t in s.tickets ==> s.tickets[t].eng in s.staff)
    && s.available <= s.staff
    && Relies(Current(c, s)) <= s.staff
    && (Current(c, s).Inserted? ==> Current(c, s).eng in s.staff)
  }

  ghost predicate OneTicketEach(s: State) {
    forall t, u :: Busy(s, t) && Busy(s, u) && s.tickets[t].eng == s.tickets[u].eng ==> t == u
  }

  /** A busy engineer's row says available only until the current caller's mark is applied. */
  ghost predicate AvailableOk(s: State, current: Stage) {
    && (forall t :: Busy(s, t) && s.tickets[t].eng in s.available ==> current == Inserted(s.tickets[t].eng))
    && (forall t :: Busy(s, t) ==> s.tickets[t].eng !in Relies(current))
  }

  /** What every safe step keeps, from whatever state. */
  ghost predicate Core(c: L.Cluster, s: State) {
    Base(c, s) && OneTicketEach(s) && AvailableOk(s, Current(c, s))
  }

  /** The engineer that the current caller has given a ticket and not marked yet. */
  function ToMark(st: Stage): set<Engineer> {
    if st.Inserted? then {st.eng} else {}
  }

  /** In safe runs no mark is late either: what the current caller has seen stays true until its mark. */
  ghost predicate Inv(c: L.Cluster, s: State) {
    Core(c, s) && Relies(Current(c, s)) + ToMark(Current(c, s)) <= s.available && s.late == multiset{}
  }

  lemma InsideIsCurrent(c: L.Cluster, s: State, r: Req)
    requires L.Inv(c, s.lock) && Inside(s, r)
    ensures L.Arbiter(c, s.lock).holder == Some(r) && Current(c, s) == StageOf(s, r)
  {
    assert L.Ok(c, s.lock, r);
  }

  predicate ByCaller(step: Step) {
    step.Read? || step.Choose? || step.Insert? || step.ApplyMark? || step.MissMark? || step.Quit?
  }

  lemma CallerIsCurrent(c: L.Cluster, s: State, step: Step)
    requires L.Inv(c, s.lock) && Enabled(c, s, step) && ByCaller(step)
    ensures Do(c, s, step).lock == s.lock
    ensures Current(c, s) == StageOf(s, step.req) && Current(c, Do(c, s, step)) == StageOf(Do(c, s, step), step.req)
  {
    InsideIsCurrent(c, s, step.req);
    InsideIsCurrent(c, Do(c, s, step), step.req);
  }

  lemma StaysInside(c: L.Cluster, s: State, ls: L.Step)
    requires L.Inv(c, s.lock) && Enabled(c, s, Lock(ls))
    ensures forall r :: Inside(s, r) && StageOf(s, r) != Finished ==> Inside(Do(c, s, Lock(ls)), r)
  {
    forall r | Inside(s, r) && StageOf(s, r) != Finished
      ensures Inside(Do(c, s, Lock(ls)), r)
    {
      L.HoldsUntilRelease(c, s.lock, ls, r);
    }
  }

  /** The lock protocol takes nobody out of the middle of his work and lets callers in at its beginning. */
  lemma CurrentAfterLockStep(c: L.Cluster, s: State, ls: L.Step)
    requires L.Inv(c, s.lock) && OnlyInside(s) && Enabled(c, s, Lock(ls))
    ensures L.Inv(c, Do(c, s, Lock(ls)).lock) && OnlyInside(Do(c, s, Lock(ls)))
    ensures var current' := Current(c, Do(c, s, Lock(ls)));
      current' == Current(c, s) || (Current(c, s) == Finished && current' == Listing({}))
  {
    var s' := Do(c, s, Lock(ls));
    L.StepInv(c, s.lock, ls);
    StaysInside(c, s, ls);
    var holder := L.Arbiter(c, s'.lock).holder;
    if holder.Some? && Inside(s', holder.value) && Inside(s, holder.value) {
      InsideIsCurrent(c, s, holder.value);
    }
    var before := L.Arbiter(c, s.lock).holder;
    if before.Some? && Inside(s, before.value) && Current(c, s) != Finished {
      InsideIsCurrent(c, s', before.value);
    }
  }

  lemma CallerBase(c: L.Cluster, s: State, step: Step)
    requires Base(c, s) && Enabled(c, s, step) && ByCaller(step)
    ensures Base(c, Do(c, s, step))
  {
    CallerIsCurrent(c, s, step);
  }

  lemma OtherBase(c: L.Cluster, s: State, step: Step)
    requires Base(c, s) && Enabled(c, s, step) && !ByCaller(step) && !step.Lock?
    ensures Base(c, Do(c, s, step))
  {
  }

  lemma StepBase(c: L.Cluster, s: State, step: Step)
    requires Base(c, s) && Enabled(c, s, step)
    ensures Base(c, Do(c, s, step))
  {
    if step.Lock? {
      R.StepTracked(c, s.lock, step.step);
      CurrentAfterLockStep(c, s, step.step);
    } else if ByCaller(step) {
      CallerBase(c, s, step);
    } else {
      OtherBase(c, s, step);
    }
  }

  lemma LockStepCore(c: L.Cluster, s: State, ls: L.Step)
    requires Core(c, s) && Enabled(c, s, Lock(ls))
    ensures Core(c, Do(c, s, Lock(ls)))
  {
    StepBase(c, s, Lock(ls));
    CurrentAfterLockStep(c, s, ls);
  }

  lemma CallerCore(c: L.Cluster, s: State, step: Step)
    requires Core(c, s) && Enabled(c, s, step) && ByCaller(step) && !Unsafe(step)
    ensures Core(c, Do(c, s, step))
  {
    StepBase(c, s, step);
    CallerIsCurrent(c, s, step);
  }

  lemma OtherCore(c: L.Cluster, s: State, step: Step)
    requires Core(c, s) && Enabled(c, s, step) && !ByCaller(step) && !step.Lock? && !Unsafe(step)
    ensures Core(c, Do(c, s, step))
  {
    StepBase(c, s, step);
  }

  /** Every safe step keeps the core, also when marks are still late. */
  lemma StepCore(c: L.Cluster, s: State, step: Step)
    requires Core(c, s) && Enabled(c, s, step) && !Unsafe(step)
    ensures Core(c, Do(c, s, step))
  {
    if step.Lock? {
      LockStepCore(c, s, step.step);
    } else if ByCaller(step) {
      CallerCore(c, s, step);
    } else {
      OtherCore(c, s, step);
    }
  }

  lemma StepInv(c: L.Cluster, s: State, step: Step)
    requires Inv(c, s) && Enabled(c, s, step) && !Unsafe(step)
    ensures Inv(c, Do(c, s, step))
  {
    StepCore(c, s, step);
    if step.Lock? {
      CurrentAfterLockStep(c, s, step.step);
    } else if ByCaller(step) {
      CallerIsCurrent(c, s, step);
    }
  }

  lemma NextInv(c: L.Cluster, s: State, s': State)
    requires Inv(c, s) && Next(c, s, s', Safe)
    ensures Inv(c, s')
  {
    var step :| Enabled(c, s, step) && Allowed(step, Safe) && s' == Do(c, s, step);
    StepInv(c, s, step);
  }

  lemma {:induction false} ReachableInv(c: L.Cluster, run: seq<State>, k: nat)
    requires Behaviour(c, run, Safe) && k < |run|
    ensures Inv(c, run[k])
  {
    if k == 0 {
      R.InitTracked(c, run[0].lock);
    } else {
      ReachableInv(c, run, k - 1);
      assert StepAt(c, run, k - 1, Safe);
      NextInv(c, run[k - 1], run[k]);
    }
  }

  /** The purpose of the design: in every reachable state each engineer has at most one open ticket. */
  lemma NeverDoubleBooked(c: L.Cluster, run: seq<State>, k: nat)
    requires Behaviour(c, run, Safe) && k < |run|
    ensures NoDoubleBooking(run[k])
  {
    ReachableInv(c, run, k);
  }

  lemma OneOpenRow(c: L.Cluster, s: State, t: TicketId, u: TicketId)
    requires Inv(c, s) && t in s.tickets && u in s.tickets && s.tickets[t].eng == s.tickets[u].eng
    requires s.tickets[t].rowOpen && !s.tickets[t].closing && s.tickets[u].rowOpen && !s.tickets[u].closing
    ensures t == u
  {
    assert Open(s, t) && Open(s, u);
  }

  /** The same for the rows themselves, of tickets with no close on its way. */
  lemma AtMostOneOpenRow(c: L.Cluster, run: seq<State>, k: nat, t: TicketId, u: TicketId)
    requires Behaviour(c, run, Safe) && k < |run|
    requires t in run[k].tickets && u in run[k].tickets && run[k].tickets[t].eng == run[k].tickets[u].eng
    requires run[k].tickets[t].rowOpen && !run[k].tickets[t].closing
    requires run[k].tickets[u].rowOpen && !run[k].tickets[u].closing
    ensures t == u
  {
    ReachableInv(c, run, k);
    OneOpenRow(c, run[k], t, u);
  }

  /** An engineer that a caller has seen available stays so until that caller has chosen. */
  lemma ReadsStayTrue(c: L.Cluster, run: seq<State>, k: nat, r: Req, e: Engineer)
    requires Behaviour(c, run, Safe) && k < |run|
    requires Inside(run[k], r) && e in Relies(StageOf(run[k], r))
    ensures e in run[k].available && Unbooked(run[k], e)
  {
    ReachableInv(c, run, k);
    InsideIsCurrent(c, run[k], r);
  }
}
