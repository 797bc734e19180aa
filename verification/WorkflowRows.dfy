/**
 The ticket workflow in terms of rows: the commits that raiseTicket and CloseTicket propose, delivered to one
 branch at a time, change the rows of the branches as the steps of TicketWorkflow say.
 */
module WorkflowRows {
  import opened Tables
  import W = TicketWorkflow
  import L = LockProtocol

  /** The tables of all branches. */
  type Branches = map<int, DB>

  /** On which branch an engineer's and a ticket's row are; ids tell. */
  datatype Homes = Homes(engineer: int -> int, ticket: int -> int)

  /** COMMIT of `op` reaches branch `b`. */
  function Deliver(dbs: Branches, b: int, op: Op): Branches
    requires b in dbs
  {
    dbs[b := Apply(b, dbs[b], op)]
  }

  ghost predicate EngineersMatch(h: Homes, b: int, db: DB, s: W.State) {
    && (forall e :: e in db.ingenieros <==> e in s.staff && h.engineer(e) == b)
    && (forall e :: e in db.ingenieros ==> (db.ingenieros[e].disponible == 1 <==> e in s.available))
  }

  ghost predicate TicketsMatch(h: Homes, b: int, db: DB, s: W.State) {
    && (forall t :: t in db.tickets <==> t in s.tickets && h.ticket(t) == b)
    && (forall t :: t in db.tickets ==>
      db.tickets[t].ingeniero == s.tickets[t].eng && (db.tickets[t].estado == ABIERTO <==> s.tickets[t].rowOpen))
  }

  ghost predicate BranchMatches(h: Homes, b: int, db: DB, s: W.State) {
    EngineersMatch(h, b, db, s) && TicketsMatch(h, b, db, s)
  }

  /** The rows are those that the state of the workflow says. */
  ghost predicate Match(h: Homes, dbs: Branches, s: W.State) {
    forall b :: b in dbs ==> BranchMatches(h, b, dbs[b], s)
  }

  /** INSERT_INGENIERO: a step of the workflow on the engineer's branch, nothing elsewhere. */
  lemma HireByRows(c: L.Cluster, h: Homes, dbs: Branches, s: W.State, b: int, i: Ingeniero)
    requires L.WellFormed(c, s.lock) && Match(h, dbs, s) && b in dbs && h.engineer(i.id) == i.sucursal
    requires W.Enabled(c, s, W.Hire(i.id))
    ensures b == i.sucursal ==> Match(h, Deliver(dbs, b, InsertIngeniero(i)), W.Do(c, s, W.Hire(i.id)))
    ensures b != i.sucursal ==> Deliver(dbs, b, InsertIngeniero(i)) == dbs
  {
    if b == i.sucursal {
      var s' := W.Do(c, s, W.Hire(i.id));
      forall x | x in dbs
        ensures BranchMatches(h, x, Deliver(dbs, b, InsertIngeniero(i))[x], s')
      {
        assert BranchMatches(h, x, dbs[x], s);
      }
    }
  }

  /** INSERT_TICKET on the branch of the caller. */
  lemma InsertByRows(c: L.Cluster, h: Homes, dbs: Branches, s: W.State, b: int, step: W.Step, t: Ticket)
    requires L.WellFormed(c, s.lock) && Match(h, dbs, s) && b in dbs
    requires h.ticket(t.id) == t.sucursal && t.estado == ABIERTO
    requires step.Insert? && step.id == t.id && W.Enabled(c, s, step) && W.StageOf(s, step.req).eng == t.ingeniero
    ensures b == t.sucursal ==> Match(h, Deliver(dbs, b, InsertTicket(t)), W.Do(c, s, step))
    ensures b != t.sucursal ==> Deliver(dbs, b, InsertTicket(t)) == dbs
  {
    if b == t.sucursal {
      var s' := W.Do(c, s, step);
      forall x | x in dbs
        ensures BranchMatches(h, x, Deliver(dbs, b, InsertTicket(t))[x], s')
      {
        assert BranchMatches(h, x, dbs[x], s);
      }
    }
  }

  /** UPDATE_INGENIERO_DISPONIBLE with 0: the mark is applied when it reaches the engineer's branch. */
  lemma MarkByRows(c: L.Cluster, h: Homes, dbs: Branches, s: W.State, b: int, step: W.Step)
    requires L.WellFormed(c, s.lock) && Match(h, dbs, s) && b in dbs && step.ApplyMark? && W.Enabled(c, s, step)
    ensures var (e, op) := (W.StageOf(s, step.req).eng, UpdateIngenieroDisponible(W.StageOf(s, step.req).eng, 0));
      && (b == h.engineer(e) ==> Match(h, Deliver(dbs, b, op), W.Do(c, s, step)))
      && (b != h.engineer(e) ==> Deliver(dbs, b, op) == dbs)
  {
    var e := W.StageOf(s, step.req).eng;
    assert BranchMatches(h, b, dbs[b], s);
    if b == h.engineer(e) {
      var s', dbs' := W.Do(c, s, step), Deliver(dbs, b, UpdateIngenieroDisponible(e, 0));
      forall x | x in dbs
        ensures BranchMatches(h, x, dbs'[x], s')
      {
        assert BranchMatches(h, x, dbs[x], s);
      }
    }
  }

  /** What the workflow does not look at: inserts and updates of other branches' rows, users, devices, folios. */
  predicate Elsewhere(h: Homes, b: int, op: Op) {
    match op
    case InsertIngeniero(i) => i.sucursal != b
    case InsertTicket(t) => t.sucursal != b
    case ReassignTicket(t) => t.sucursal != b
    case CloseTicket(id, e) => h.ticket(id) != b && h.engineer(e) != b
    case UpdateIngenieroDisponible(e, _) => h.engineer(e) != b
    case _ => true
  }

  lemma ElsewhereByRows(h: Homes, dbs: Branches, s: W.State, b: int, op: Op)
    requires Match(h, dbs, s) && b in dbs && Elsewhere(h, b, op)
    ensures Match(h, Deliver(dbs, b, op), s)
  {
    forall x | x in dbs
      ensures BranchMatches(h, x, Deliver(dbs, b, op)[x], s)
    {
      assert BranchMatches(h, x, dbs[x], s);
    }
  }

  /** UPDATE_TICKET_FOLIO changes nothing that the workflow looks at, wherever and whenever it arrives. */
  lemma FolioByRows(h: Homes, dbs: Branches, s: W.State, b: int, id: int, folio: string)
    requires Match(h, dbs, s) && b in dbs
    ensures Match(h, Deliver(dbs, b, UpdateTicketFolio(id, folio)), s)
  {
    forall x | x in dbs
      ensures BranchMatches(h, x, Deliver(dbs, b, UpdateTicketFolio(id, folio))[x], s)
    {
      assert BranchMatches(h, x, dbs[x], s);
    }
  }

  /** What a close does to the workflow when it reaches branch `b`: its two halves, where their rows are. */
  function AtTicketHome(c: L.Cluster, h: Homes, s: W.State, b: int, id: int): W.State
    requires L.WellFormed(c, s.lock)
  {
    if h.ticket(id) == b && W.Enabled(c, s, W.CloseRow(id)) then W.Do(c, s, W.CloseRow(id)) else s
  }

  function AtEngineerHome(c: L.Cluster, h: Homes, s: W.State, b: int, id: int): W.State
    requires L.WellFormed(c, s.lock)
  {
    if W.Enabled(c, s, W.FreeEngineer(id)) && h.engineer(s.tickets[id].eng) == b
    then W.Do(c, s, W.FreeEngineer(id))
    else s
  }

  /** The workflow's side of a close at branch `b`. */
  function AfterClose(c: L.Cluster, h: Homes, s: W.State, b: int, id: int): W.State
    requires L.WellFormed(c, s.lock)
  {
    AtEngineerHome(c, h, AtTicketHome(c, h, s, b, id), b, id)
  }

  lemma AfterCloseFields(c: L.Cluster, h: Homes, s: W.State, b: int, id: int)
    requires L.WellFormed(c, s.lock) && id in s.tickets && s.tickets[id].closing
    requires h.engineer(s.tickets[id].eng) == b ==> !s.tickets[id].freed
    ensures var (s', e) := (AfterClose(c, h, s, b, id), s.tickets[id].eng);
      && s'.staff == s.staff && s'.available == s.available + (if h.engineer(e) == b then {e} else {})
      && s'.tickets == s.tickets[id := s'.tickets[id]] && s'.tickets[id].eng == e
      && s'.tickets[id].rowOpen == (s.tickets[id].rowOpen && h.ticket(id) != b)
  {
  }

  lemma CloseAtEngineers(h: Homes, x: int, b: int, db: DB, s: W.State, s': W.State, id: int, e: int)
    requires EngineersMatch(h, x, db, s) && s'.staff == s.staff
    requires s'.available == s.available + if h.engineer(e) == b then {e} else {}
    ensures EngineersMatch(h, x, if x == b then Apply(b, db, CloseTicket(id, e)) else db, s')
  {
  }

  lemma CloseAtTickets(h: Homes, x: int, b: int, db: DB, s: W.State, s': W.State, id: int, e: int)
    requires TicketsMatch(h, x, db, s) && id in s.tickets && id in s'.tickets
    requires s'.tickets == s.tickets[id := s'.tickets[id]] && s'.tickets[id].eng == s.tickets[id].eng
    requires s'.tickets[id].rowOpen == (s.tickets[id].rowOpen && h.ticket(id) != b)
    ensures TicketsMatch(h, x, if x == b then Apply(b, db, CloseTicket(id, e)) else db, s')
  {
  }

  /** CLOSE_TICKET, committed for an open ticket and its engineer and not delivered to this branch before. */
  lemma CloseByRows(c: L.Cluster, h: Homes, dbs: Branches, s: W.State, b: int, id: int)
    requires L.WellFormed(c, s.lock) && Match(h, dbs, s) && b in dbs
    requires id in s.tickets && s.tickets[id].closing
    requires h.engineer(s.tickets[id].eng) == b ==> !s.tickets[id].freed
    ensures Match(h, Deliver(dbs, b, CloseTicket(id, s.tickets[id].eng)), AfterClose(c, h, s, b, id))
  {
    var e, s' := s.tickets[id].eng, AfterClose(c, h, s, b, id);
    var dbs' := Deliver(dbs, b, CloseTicket(id, e));
    AfterCloseFields(c, h, s, b, id);
    forall x | x in dbs
      ensures BranchMatches(h, x, dbs'[x], s')
    {
      assert BranchMatches(h, x, dbs[x], s);
      CloseAtEngineers(h, x, b, dbs[x], s, s', id, e);
      CloseAtTickets(h, x, b, dbs[x], s, s', id, e);
    }
  }

  /** A read of an engineer's row sees what the workflow's Read sees. */
  lemma ReadByRows(h: Homes, dbs: Branches, s: W.State, e: int)
    requires Match(h, dbs, s) && e in s.staff && h.engineer(e) in dbs
    ensures e in dbs[h.engineer(e)].ingenieros
    ensures dbs[h.engineer(e)].ingenieros[e].disponible == 1 <==> e in s.available
  {
    assert BranchMatches(h, h.engineer(e), dbs[h.engineer(e)], s);
  }

  // ---- Rows and workflow together ------------------------------------------------------------------

  /** The callers and the lock on one side, the rows of all branches on the other. */
  datatype Joint = Joint(work: W.State, dbs: Branches)

  /** A step that touches no row, or one commit that reaches one branch. */
  datatype JointStep =
    | NoRow(step: W.Step)
    | OtherAt(b: int, op: Op)
    | HireAt(i: Ingeniero)
    | InsertAt(step: W.Step, t: Ticket)
    | MarkAt(step: W.Step)
    | CloseAt(b: int, id: int)

  predicate TouchesNoRow(step: W.Step) {
    step.Lock? || step.Read? || step.Choose? || step.Quit? || step.CommitClose?
  }

  predicate JointEnabled(c: L.Cluster, h: Homes, j: Joint, step: JointStep) {
    match step
    case NoRow(ws) => TouchesNoRow(ws) && W.Enabled(c, j.work, ws)
    case OtherAt(b, op) => b in j.dbs && Elsewhere(h, b, op)
    case HireAt(i) => i.sucursal in j.dbs && h.engineer(i.id) == i.sucursal && W.Enabled(c, j.work, W.Hire(i.id))
    case InsertAt(ws, t) =>
      && t.sucursal in j.dbs && h.ticket(t.id) == t.sucursal && t.estado == ABIERTO
      && ws.Insert? && ws.id == t.id && W.Enabled(c, j.work, ws) && W.StageOf(j.work, ws.req).eng == t.ingeniero
    case MarkAt(ws) =>
      ws.ApplyMark? && W.Enabled(c, j.work, ws) && h.engineer(W.StageOf(j.work, ws.req).eng) in j.dbs
    case CloseAt(b, id) =>
      && b in j.dbs && id in j.work.tickets && j.work.tickets[id].closing
      && (h.engineer(j.work.tickets[id].eng) == b ==> !j.work.tickets[id].freed)
  }

  function JointDo(c: L.Cluster, h: Homes, j: Joint, step: JointStep): Joint
    requires L.WellFormed(c, j.work.lock) && JointEnabled(c, h, j, step)
  {
    match step
    case NoRow(ws) => j.(work := W.Do(c, j.work, ws))
    case OtherAt(b, op) => j.(dbs := Deliver(j.dbs, b, op))
    case HireAt(i) => Joint(W.Do(c, j.work, W.Hire(i.id)), Deliver(j.dbs, i.sucursal, InsertIngeniero(i)))
    case InsertAt(ws, t) => Joint(W.Do(c, j.work, ws), Deliver(j.dbs, t.sucursal, InsertTicket(t)))
    case MarkAt(ws) =>
      var e := W.StageOf(j.work, ws.req).eng;
      Joint(W.Do(c, j.work, ws), Deliver(j.dbs, h.engineer(e), UpdateIngenieroDisponible(e, 0)))
    case CloseAt(b, id) =>
      Joint(AfterClose(c, h, j.work, b, id), Deliver(j.dbs, b, CloseTicket(id, j.work.tickets[id].eng)))
  }

  ghost predicate JointInv(c: L.Cluster, h: Homes, j: Joint) {
    W.Inv(c, j.work) && Match(h, j.dbs, j.work)
  }

  lemma NoRowByRows(c: L.Cluster, h: Homes, dbs: Branches, s: W.State, step: W.Step)
    requires L.WellFormed(c, s.lock) && Match(h, dbs, s) && TouchesNoRow(step) && W.Enabled(c, s, step)
    ensures Match(h, dbs, W.Do(c, s, step))
  {
    forall b | b in dbs
      ensures BranchMatches(h, b, dbs[b], W.Do(c, s, step))
    {
      assert BranchMatches(h, b, dbs[b], s);
    }
  }

  lemma AfterCloseInv(c: L.Cluster, h: Homes, s: W.State, b: int, id: int)
    requires W.Inv(c, s)
    ensures W.Inv(c, AfterClose(c, h, s, b, id))
  {
    var s1 := AtTicketHome(c, h, s, b, id);
    if s1 != s {
      W.StepInv(c, s, W.CloseRow(id));
    }
    if AtEngineerHome(c, h, s1, b, id) != s1 {
      W.StepInv(c, s1, W.FreeEngineer(id));
    }
  }

  /** Every such step keeps the workflow's invariant and the match of the rows with it. */
  lemma JointStepInv(c: L.Cluster, h: Homes, j: Joint, step: JointStep)
    requires JointInv(c, h, j) && JointEnabled(c, h, j, step)
    ensures JointInv(c, h, JointDo(c, h, j, step))
  {
    match step
    case NoRow(ws) =>
      W.StepInv(c, j.work, ws);
      NoRowByRows(c, h, j.dbs, j.work, ws);
    case OtherAt(b, op) => ElsewhereByRows(h, j.dbs, j.work, b, op);
    case HireAt(i) =>
      W.StepInv(c, j.work, W.Hire(i.id));
      HireByRows(c, h, j.dbs, j.work, i.sucursal, i);
    case InsertAt(ws, t) =>
      W.StepInv(c, j.work, ws);
      InsertByRows(c, h, j.dbs, j.work, t.sucursal, ws, t);
    case MarkAt(ws) =>
      W.StepInv(c, j.work, ws);
      MarkByRows(c, h, j.dbs, j.work, h.engineer(W.StageOf(j.work, ws.req).eng), ws);
    case CloseAt(b, id) =>
      AfterCloseInv(c, h, j.work, b, id);
      CloseByRows(c, h, j.dbs, j.work, b, id);
  }

  ghost predicate JointNext(c: L.Cluster, h: Homes, j: Joint, j': Joint) {
    L.WellFormed(c, j.work.lock) && exists step :: JointEnabled(c, h, j, step) && j' == JointDo(c, h, j, step)
  }

  ghost predicate JointStepAt(c: L.Cluster, h: Homes, run: seq<Joint>, i: nat)
    requires i + 1 < |run|
  {
    JointNext(c, h, run[i], run[i + 1])
  }

  /** A run of callers, lock and commits over branches whose tables are empty at the start. */
  ghost predicate JointBehaviour(c: L.Cluster, h: Homes, run: seq<Joint>) {
    && c.Valid() && run != []
    && W.Init(c, run[0].work) && (forall b :: b in run[0].dbs ==> run[0].dbs[b] == EMPTY)
    && forall i :: 0 <= i < |run| - 1 ==> JointStepAt(c, h, run, i)
  }

  lemma JointInit(c: L.Cluster, h: Homes, j: Joint)
    requires c.Valid() && W.Init(c, j.work) && forall b :: b in j.dbs ==> j.dbs[b] == EMPTY
    ensures JointInv(c, h, j)
  {
    W.ReachableInv(c, [j.work], 0);
    assert forall b :: b in j.dbs ==> BranchMatches(h, b, j.dbs[b], j.work);
  }

  lemma JointNextInv(c: L.Cluster, h: Homes, j: Joint, j': Joint)
    requires JointInv(c, h, j) && JointNext(c, h, j, j')
    ensures JointInv(c, h, j')
  {
    var step :| JointEnabled(c, h, j, step) && j' == JointDo(c, h, j, step);
    JointStepInv(c, h, j, step);
  }

  lemma JointStepAtInv(c: L.Cluster, h: Homes, run: seq<Joint>, i: nat)
    requires i + 1 < |run| && JointInv(c, h, run[i]) && JointStepAt(c, h, run, i)
    ensures JointInv(c, h, run[i + 1])
  {
    JointNextInv(c, h, run[i], run[i + 1]);
  }

  lemma JointRunInv(c: L.Cluster, h: Homes, run: seq<Joint>, k: nat)
    requires k < |run| && JointInv(c, h, run[0]) && forall i :: 0 <= i < k ==> JointStepAt(c, h, run, i)
    ensures JointInv(c, h, run[k])
  {
    for i := 0 to k
      invariant JointInv(c, h, run[i])
    {
      JointStepAtInv(c, h, run, i);
    }
  }

  /** In every reachable state the rows are those of a workflow that satisfies its invariant. */
  lemma ReachableMatch(c: L.Cluster, h: Homes, run: seq<Joint>, k: nat)
    requires JointBehaviour(c, h, run) && k < |run|
    ensures JointInv(c, h, run[k])
  {
    JointInit(c, h, run[0]);
    JointRunInv(c, h, run, k);
  }

  /**
   No double booking, row by row over all branches: in every reachable state, two rows that say ABIERTO for one
   engineer and have no close on its way are the same row.
   */
  lemma OneOpenRowPerEngineer(c: L.Cluster, h: Homes, run: seq<Joint>, k: nat, a: int, t: int, b: int, u: int)
    requires JointBehaviour(c, h, run) && k < |run|
    requires var s := run[k].work; forall x :: x in {t, u} && x in s.tickets ==> !s.tickets[x].closing
    requires var dbs := run[k].dbs;
      && a in dbs && t in dbs[a].tickets && dbs[a].tickets[t].estado == "ABIERTO"
      && b in dbs && u in dbs[b].tickets && dbs[b].tickets[u].estado == "ABIERTO"
      && dbs[a].tickets[t].ingeniero == dbs[b].tickets[u].ingeniero
    ensures a == b && t == u
  {
    ReachableMatch(c, h, run, k);
    var s, dbs := run[k].work, run[k].dbs;
    assert BranchMatches(h, a, dbs[a], s) && BranchMatches(h, b, dbs[b], s);
    W.OneOpenRow(c, s, t, u);
  }
}
