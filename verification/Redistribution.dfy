/**
 What becomes of the open tickets of a dead branch (internal/service/ticket_service.go, RedistributeTickets).
 The master lists all tickets and engineers, which means its own rows and those of the peers it believes
 alive, and proposes the open tickets of the dead branch to available engineers of the others.
 */
module Redistribution {
  import opened Sequences
  import opened NodeState
  import opened Tables
  import opened Shards
  import opened Assignment

  function OpenAt(branch: int): Ticket -> bool {
    (t: Ticket) => t.estado == ABIERTO && t.sucursal == branch
  }

  function AvailableOutside(branch: int): Ingeniero -> bool {
    (e: Ingeniero) => e.disponible == 1 && e.sucursal != branch
  }

  /** The row proposed for ticket `t`: it moves to the branch of its new engineer `e` and has no folio. */
  function Moved(t: Ticket, e: Ingeniero): Ticket {
    Ticket(t.id, t.usuario, e.id, e.sucursal, t.dispositivo, ABIERTO, "", t.createdAt)
  }

  /**
   The open tickets of the dead branch go, in the order listed, to the available engineers elsewhere, in the
   order listed, one each until either list ends.
   */
  ghost predicate Redistributed(tickets: seq<Ticket>, engs: seq<Ingeniero>, dead: int, open: seq<Ticket>,
                                free: seq<Ingeniero>, moves: seq<Ticket>) {
    && Selects(tickets, OpenAt(dead), open) && Selects(engs, AvailableOutside(dead), free)
    && |moves| == (if |open| < |free| then |open| else |free|)
    && forall i :: 0 <= i < |moves| ==> moves[i] == Moved(open[i], free[i])
  }

  /** The loop over the tickets. */
  method OpenTickets(tickets: seq<Ticket>, dead: int) returns (open: seq<Ticket>)
    ensures Selects(tickets, OpenAt(dead), open)
  {
    open := [];
    SelectsNothing(OpenAt(dead));
    for i := 0 to |tickets|
      invariant Selects(tickets[..i], OpenAt(dead), open)
    {
      assert tickets[..i + 1] == tickets[..i] + [tickets[i]];
      SelectsOneMore(tickets[..i], OpenAt(dead), open, tickets[i]);
      if tickets[i].estado == ABIERTO && tickets[i].sucursal == dead {
        open := open + [tickets[i]];
      }
    }
    assert tickets[..|tickets|] == tickets;
  }

  /** The loop over the engineers. */
  method AvailableEngineers(engs: seq<Ingeniero>, dead: int) returns (available: seq<Ingeniero>)
    ensures Selects(engs, AvailableOutside(dead), available)
  {
    available := [];
    SelectsNothing(AvailableOutside(dead));
    for i := 0 to |engs|
      invariant Selects(engs[..i], AvailableOutside(dead), available)
    {
      assert engs[..i + 1] == engs[..i] + [engs[i]];
      SelectsOneMore(engs[..i], AvailableOutside(dead), available, engs[i]);
      if engs[i].disponible == 1 && engs[i].sucursal != dead {
        available := available + [engs[i]];
      }
    }
    assert engs[..|engs|] == engs;
  }

  /** The loop that pairs them off. */
  method PairOff(open: seq<Ticket>, engs: seq<Ingeniero>) returns (moves: seq<Ticket>)
    ensures |moves| == if |open| < |engs| then |open| else |engs|
    ensures forall i :: 0 <= i < |moves| ==> moves[i] == Moved(open[i], engs[i])
  {
    moves := [];
    var available := engs;
    for i := 0 to |open|
      invariant |moves| == i && i <= |engs| && available == engs[i..]
      invariant forall j :: 0 <= j < i ==> moves[j] == Moved(open[j], engs[j])
    {
      if |available| == 0 {
        break;
      }
      var eng := available[0];
      available := available[1..];
      moves := moves + [Moved(open[i], eng)];
    }
  }

  /** RedistributeTickets over the answers of its two queries. */
  method Redistribute(tickets: seq<Ticket>, engs: seq<Ingeniero>, dead: int)
    returns (moves: seq<Ticket>, ghost open: seq<Ticket>, ghost free: seq<Ingeniero>)
    ensures Redistributed(tickets, engs, dead, open, free, moves)
  {
    var pending := OpenTickets(tickets, dead);
    open := pending;
    if |pending| == 0 {
      moves := [];
      free := Selection(engs, AvailableOutside(dead));
      return;
    }
    var available := AvailableEngineers(engs, dead);
    free := available;
    moves := PairOff(pending, available);
  }

  lemma OpenExactly(tickets: seq<Ticket>, dead: int, open: seq<Ticket>)
    requires Selects(tickets, OpenAt(dead), open)
    ensures |open| == |set k | 0 <= k < |tickets| && tickets[k].estado == "ABIERTO" && tickets[k].sucursal == dead|
    ensures forall t :: t in open <==> t in tickets && t.estado == "ABIERTO" && t.sucursal == dead
  {
    SelectionCount(tickets, OpenAt(dead), open);
    SelectionMembers(tickets, OpenAt(dead), open);
    assert Positions(tickets, OpenAt(dead)) ==
      set k | 0 <= k < |tickets| && tickets[k].estado == "ABIERTO" && tickets[k].sucursal == dead;
  }

  lemma FreeExactly(engs: seq<Ingeniero>, dead: int, free: seq<Ingeniero>)
    requires Selects(engs, AvailableOutside(dead), free)
    ensures |free| == |set k | 0 <= k < |engs| && engs[k].disponible == 1 && engs[k].sucursal != dead|
    ensures forall e :: e in free <==> e in engs && e.disponible == 1 && e.sucursal != dead
  {
    SelectionCount(engs, AvailableOutside(dead), free);
    SelectionMembers(engs, AvailableOutside(dead), free);
    assert Positions(engs, AvailableOutside(dead)) ==
      set k | 0 <= k < |engs| && engs[k].disponible == 1 && engs[k].sucursal != dead;
  }

  /** Row `row` is that of an open ticket of the dead branch with another engineer, branch and folio. */
  ghost predicate TakesOver(tickets: seq<Ticket>, engs: seq<Ingeniero>, dead: int, row: Ticket) {
    && (exists e :: e in engs && e.disponible == 1 && e.id == row.ingeniero && e.sucursal == row.sucursal != dead)
    && (exists t :: t in tickets && t.estado == "ABIERTO" && t.sucursal == dead
          && row == t.(ingeniero := row.ingeniero, sucursal := row.sucursal, folio := ""))
  }

  lemma TakesOverOne(tickets: seq<Ticket>, engs: seq<Ingeniero>, dead: int, t: Ticket, e: Ingeniero)
    requires t in tickets && t.estado == "ABIERTO" && t.sucursal == dead
    requires e in engs && e.disponible == 1 && e.sucursal != dead
    ensures TakesOver(tickets, engs, dead, Moved(t, e))
  {
  }

  /**
   So the moves are a matching: no engineer takes two tickets, no ticket goes to two engineers, as many are moved as
   there are open tickets or available engineers, whichever are fewer, and nothing else in a row is new.
   */
  lemma RedistributionMatches(tickets: seq<Ticket>, engs: seq<Ingeniero>, dead: int, open: seq<Ticket>,
                              free: seq<Ingeniero>, moves: seq<Ticket>)
    requires Redistributed(tickets, engs, dead, open, free, moves)
    ensures Distinct(IDs(engs)) ==> forall i, j :: 0 <= i < j < |moves| ==> moves[i].ingeniero != moves[j].ingeniero
    ensures Distinct(TicketIDs(tickets)) ==> forall i, j :: 0 <= i < j < |moves| ==> moves[i].id != moves[j].id
    ensures
      var n := |set k | 0 <= k < |tickets| && tickets[k].estado == "ABIERTO" && tickets[k].sucursal == dead|;
      var m := |set k | 0 <= k < |engs| && engs[k].disponible == 1 && engs[k].sucursal != dead|;
      |moves| == if n < m then n else m
    ensures forall i :: 0 <= i < |moves| ==> TakesOver(tickets, engs, dead, moves[i])
  {
    OpenExactly(tickets, dead, open);
    FreeExactly(engs, dead, free);
    if Distinct(IDs(engs)) {
      SelectionOfDistinct(engs, AvailableOutside(dead), free, (e: Ingeniero) => e.id, IDs(engs));
    }
    if Distinct(TicketIDs(tickets)) {
      SelectionOfDistinct(tickets, OpenAt(dead), open, (t: Ticket) => t.id, TicketIDs(tickets));
    }
    forall i | 0 <= i < |moves|
      ensures TakesOver(tickets, engs, dead, moves[i])
    {
      assert open[i] in open && free[i] in free;
      TakesOverOne(tickets, engs, dead, open[i], free[i]);
    }
  }

  function TicketIDs(tickets: seq<Ticket>): (ids: seq<int>)
    ensures |ids| == |tickets| && forall i :: 0 <= i < |ids| ==> ids[i] == tickets[i].id
  {
    seq(|tickets|, i requires 0 <= i < |tickets| => tickets[i].id)
  }

  // ---- Which tickets it finds ------------------------------------------------------------------------

  ghost predicate OwnTickets(b: int, tickets: map<int, Ticket>) {
    forall x :: x in tickets ==> tickets[x].sucursal == b
  }

  /** A node keeps tickets of its own branch only, whatever is committed to it. */
  lemma {:induction false} OwnTicketsOnly(b: int, db: DB, ops: seq<Op>)
    requires OwnTickets(b, db.tickets)
    ensures OwnTickets(b, Replay(b, db, ops).tickets)
    decreases |ops|
  {
    if ops != [] {
      RowByRow(b, db, ops[0]);
      OwnTicketsOnly(b, Apply(b, db, ops[0]), ops[1..]);
    }
  }

  lemma {:induction false} InConcat<R>(lists: seq<seq<R>>, x: R)
    ensures x in Concat(lists) <==> exists i :: 0 <= i < |lists| && x in lists[i]
  {
    if lists != [] {
      var n := |lists| - 1;
      InConcat(lists[..n], x);
      if x in Concat(lists[..n]) {
        var i :| 0 <= i < n && x in lists[..n][i];
        assert x in lists[i];
      }
      if i :| 0 <= i < n && x in lists[i] {
        assert x in lists[..n][i];
      }
    }
  }

  /** The tickets of node `nodes[i]` after the commits `histories[i]` that reached it, each list in any order. */
  ghost predicate TicketsOf(nodes: seq<int>, histories: seq<seq<Op>>, lists: seq<seq<Ticket>>) {
    && |nodes| == |histories| == |lists|
    && forall i :: 0 <= i < |nodes| ==> Lists(lists[i], Replay(nodes[i], EMPTY, histories[i]).tickets)
  }

  /** Node `nodes[i]` is the dead one and has ticket `x` open. */
  ghost predicate DeadAnswers(nodes: seq<int>, histories: seq<seq<Op>>, dead: int, i: int, x: int) {
    && 0 <= i < |nodes| == |histories| && nodes[i] == dead
    && var ts := Replay(dead, EMPTY, histories[i]).tickets;
      x in ts && ts[x].estado == "ABIERTO"
  }

  lemma KeyOf<K(!new), R(!new)>(m: map<K, R>, r: R) returns (x: K)
    requires r in m.Values
    ensures x in m && m[x] == r
  {
    x :| x in m && m[x] == r;
  }

  lemma ListedRow<R(!new)>(rows: seq<R>, m: map<int, R>, r: R)
    requires Lists(rows, m)
    ensures r in rows <==> exists x :: x in m && m[x] == r
  {
    assert r in multiset(rows) <==> r in m.Values;
    if r in m.Values {
      var x := KeyOf(m, r);
    }
  }

  lemma OpenMeansDeadAnswers(nodes: seq<int>, histories: seq<seq<Op>>, lists: seq<seq<Ticket>>, dead: int, t: Ticket)
    requires TicketsOf(nodes, histories, lists) && t in Concat(lists) && t.estado == "ABIERTO" && t.sucursal == dead
    ensures exists i, x :: DeadAnswers(nodes, histories, dead, i, x)
  {
    InConcat(lists, t);
    var i :| 0 <= i < |lists| && t in lists[i];
    ListedRow(lists[i], Replay(nodes[i], EMPTY, histories[i]).tickets, t);
    OwnTicketsOnly(nodes[i], EMPTY, histories[i]);
    var x :| x in Replay(nodes[i], EMPTY, histories[i]).tickets
      && Replay(nodes[i], EMPTY, histories[i]).tickets[x] == t;
    assert DeadAnswers(nodes, histories, dead, i, x);
  }

  lemma DeadAnswersMeansOpen(nodes: seq<int>, histories: seq<seq<Op>>, lists: seq<seq<Ticket>>, dead: int,
                             i: int, x: int) returns (t: Ticket)
    requires TicketsOf(nodes, histories, lists) && DeadAnswers(nodes, histories, dead, i, x)
    ensures t in Concat(lists) && t.estado == "ABIERTO" && t.sucursal == dead
  {
    var ts := Replay(dead, EMPTY, histories[i]).tickets;
    t := ts[x];
    OwnTicketsOnly(dead, EMPTY, histories[i]);
    ListedRow(lists[i], ts, t);
    InConcat(lists, t);
  }

  /**
   Whatever was committed where: a redistribution moves a ticket exactly if the dead node is itself among the
   nodes that were listed and has an open ticket, and an engineer elsewhere is available.
   */
  lemma MovesIffDeadAnswers(nodes: seq<int>, histories: seq<seq<Op>>, lists: seq<seq<Ticket>>, engs: seq<Ingeniero>,
                            dead: int, open: seq<Ticket>, free: seq<Ingeniero>, moves: seq<Ticket>)
    requires TicketsOf(nodes, histories, lists) && Redistributed(Concat(lists), engs, dead, open, free, moves)
    ensures moves != [] <==>
      && (exists i, x :: DeadAnswers(nodes, histories, dead, i, x))
      && (exists e :: e in engs && e.disponible == 1 && e.sucursal != dead)
  {
    OpenExactly(Concat(lists), dead, open);
    FreeExactly(engs, dead, free);
    if moves != [] {
      assert open[0] in open && free[0] in free;
      OpenMeansDeadAnswers(nodes, histories, lists, dead, open[0]);
    } else if i, x :| DeadAnswers(nodes, histories, dead, i, x) {
      var t := DeadAnswersMeansOpen(nodes, histories, lists, dead, i, x);
      assert t in open;
    }
  }

  /**
   So the master that has just declared a peer dead moves none of its tickets: it lists its own and those of
   the peers that it believes alive.
   */
  lemma NothingIsRedistributed(all: seq<int>, self: int, alive: set<int>, nodes: seq<int>, histories: seq<seq<Op>>,
                               lists: seq<seq<Ticket>>, engs: seq<Ingeniero>, dead: int, open: seq<Ticket>,
                               free: seq<Ingeniero>, moves: seq<Ticket>)
    requires dead != self && dead !in alive
    requires forall n :: n in nodes ==> n == self || n in AliveOf(PeersOf(all, self), alive)
    requires TicketsOf(nodes, histories, lists) && Redistributed(Concat(lists), engs, dead, open, free, moves)
    ensures moves == []
  {
    AliveExact(PeersOf(all, self), alive);
    MovesIffDeadAnswers(nodes, histories, lists, engs, dead, open, free, moves);
    forall i, x
      ensures !DeadAnswers(nodes, histories, dead, i, x)
    {
      assert 0 <= i < |nodes| ==> nodes[i] in nodes;
    }
  }
}
