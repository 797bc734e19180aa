/**
 The sharded cluster against one central database.  Every node applies every commit and keeps the inserts
 of its own branch only (cmd/main.go); a query gathers all shards (ticket_service.go, ListAll).  The
 central tables are keyed by branch and id, because a reassigned ticket keeps its id on another branch.
 */
module Shards {
  import opened Sequences
  import opened Tables

  type Key = (int, int)

  datatype Central = Central(
    ingenieros: map<Key, Ingeniero>,
    usuarios: map<Key, Usuario>,
    dispositivos: map<Key, Dispositivo>,
    tickets: map<Key, Ticket>)

  const NOTHING := Central(map[], map[], map[], map[])

  /** UPDATE ... WHERE id=? on the central table, over all branches. */
  function ChangeAll<R>(m: map<Key, R>, id: int, f: R -> R): map<Key, R> {
    map k | k in m :: if k.1 == id then f(m[k]) else m[k]
  }

  /** One database that executes each committed operation once. */
  function Execute(c: Central, op: Op): Central {
    match op
    case InsertUsuario(u) => c.(usuarios := Put(c.usuarios, (u.sucursal, u.id), u))
    case InsertIngeniero(i) => c.(ingenieros := Put(c.ingenieros, (i.sucursal, i.id), i.(disponible := 1)))
    case InsertDispositivo(d) => c.(dispositivos := Put(c.dispositivos, (d.sucursal, d.id), d))
    case InsertTicket(t) => c.(tickets := Put(c.tickets, (t.sucursal, t.id), t))
    case ReassignTicket(t) => c.(tickets := Put(c.tickets, (t.sucursal, t.id), t))
    case UpdateTicketFolio(id, folio) => c.(tickets := ChangeAll(c.tickets, id, SetFolio(folio)))
    case CloseTicket(id, ing) =>
      c.(tickets := ChangeAll(c.tickets, id, SetEstado(CERRADO)),
         ingenieros := ChangeAll(c.ingenieros, ing, SetDisponible(1)))
    case UpdateIngenieroDisponible(ing, d) => c.(ingenieros := ChangeAll(c.ingenieros, ing, SetDisponible(d)))
    case Malformed => c
    case UnknownOperation => c
  }

  /** The same row by row: a row that is there is kept, and updates change one column of the rows with one id. */
  ghost predicate UsuariosAfter(c: Central, op: Op, c': Central) {
    && (forall k :: k in c'.usuarios <==> k in c.usuarios || (op.InsertUsuario? && k == (op.u.sucursal, op.u.id)))
    && (forall k :: k in c'.usuarios ==> c'.usuarios[k] == if k in c.usuarios then c.usuarios[k] else op.u)
  }

  ghost predicate DispositivosAfter(c: Central, op: Op, c': Central) {
    && (forall k :: k in c'.dispositivos <==>
      k in c.dispositivos || (op.InsertDispositivo? && k == (op.d.sucursal, op.d.id)))
    && (forall k :: k in c'.dispositivos ==>
      c'.dispositivos[k] == if k in c.dispositivos then c.dispositivos[k] else op.d)
  }

  ghost predicate IngenierosAfter(c: Central, op: Op, c': Central) {
    && (forall k :: k in c'.ingenieros <==>
      k in c.ingenieros || (op.InsertIngeniero? && k == (op.i.sucursal, op.i.id)))
    && (forall k :: k in c'.ingenieros ==>
      c'.ingenieros[k] ==
        if k !in c.ingenieros then Ingeniero(k.1, op.i.nombre, k.0, 1)
        else if op.CloseTicket? && op.idIngeniero == k.1 then c.ingenieros[k].(disponible := 1)
        else if op.UpdateIngenieroDisponible? && op.idIngeniero == k.1 then
          c.ingenieros[k].(disponible := op.disponible)
        else c.ingenieros[k])
  }

  ghost predicate TicketsAfter(c: Central, op: Op, c': Central) {
    && (forall k :: k in c'.tickets <==>
      k in c.tickets || ((op.InsertTicket? || op.ReassignTicket?) && k == (op.t.sucursal, op.t.id)))
    && (forall k :: k in c'.tickets ==>
      c'.tickets[k] ==
        if k !in c.tickets then op.t
        else if op.UpdateTicketFolio? && op.idTicket == k.1 then c.tickets[k].(folio := op.folio)
        else if op.CloseTicket? && op.idTicket == k.1 then c.tickets[k].(estado := "CERRADO")
        else c.tickets[k])
  }

  lemma CentralRowByRow(c: Central, op: Op)
    ensures UsuariosAfter(c, op, Execute(c, op)) && DispositivosAfter(c, op, Execute(c, op))
    ensures IngenierosAfter(c, op, Execute(c, op)) && TicketsAfter(c, op, Execute(c, op))
  {
  }

  function ExecuteAll(c: Central, ops: seq<Op>): Central
    decreases |ops|
  {
    if ops == [] then c else ExecuteAll(Execute(c, ops[0]), ops[1..])
  }

  /** The rows of one branch. */
  function Branch<R>(m: map<Key, R>, b: int): map<int, R> {
    map k | k in m && k.0 == b :: k.1 := m[k]
  }

  function Shard(c: Central, b: int): DB {
    DB(Branch(c.ingenieros, b), Branch(c.usuarios, b), Branch(c.dispositivos, b), Branch(c.tickets, b))
  }

  lemma BranchPut<R>(m: map<Key, R>, b: int, k: Key, row: R)
    ensures Branch(Put(m, k, row), b) == if k.0 == b then Put(Branch(m, b), k.1, row) else Branch(m, b)
  {
  }

  lemma BranchChange<R>(m: map<Key, R>, b: int, id: int, f: R -> R)
    ensures Branch(ChangeAll(m, id, f), b) == Change(Branch(m, b), id, f)
  {
  }

  lemma InsertRefines(c: Central, b: int, op: Op)
    requires Inserts(op)
    ensures Apply(b, Shard(c, b), op) == Shard(Execute(c, op), b)
  {
    match op
    case InsertUsuario(u) => BranchPut(c.usuarios, b, (u.sucursal, u.id), u);
    case InsertIngeniero(i) => BranchPut(c.ingenieros, b, (i.sucursal, i.id), i.(disponible := 1));
    case InsertDispositivo(d) => BranchPut(c.dispositivos, b, (d.sucursal, d.id), d);
    case InsertTicket(t) => BranchPut(c.tickets, b, (t.sucursal, t.id), t);
    case ReassignTicket(t) => BranchPut(c.tickets, b, (t.sucursal, t.id), t);
  }

  lemma UpdateRefines(c: Central, b: int, op: Op)
    requires !Inserts(op)
    ensures Apply(b, Shard(c, b), op) == Shard(Execute(c, op), b)
  {
    match op
    case UpdateTicketFolio(id, folio) => BranchChange(c.tickets, b, id, SetFolio(folio));
    case CloseTicket(id, ing) =>
      BranchChange(c.tickets, b, id, SetEstado(CERRADO));
      BranchChange(c.ingenieros, b, ing, SetDisponible(1));
    case UpdateIngenieroDisponible(ing, d) => BranchChange(c.ingenieros, b, ing, SetDisponible(d));
    case Malformed =>
    case UnknownOperation =>
  }

  /** One commit at a node does to its shard what it does to the central database. */
  lemma CommitRefines(c: Central, b: int, op: Op)
    ensures Apply(b, Shard(c, b), op) == Shard(Execute(c, op), b)
  {
    if Inserts(op) {
      InsertRefines(c, b, op);
    } else {
      UpdateRefines(c, b, op);
    }
  }

  /** Delivered in one order everywhere, any commits leave each node with its shard of the central tables. */
  lemma {:induction false} ClusterRefinesCentral(c: Central, b: int, ops: seq<Op>)
    ensures Replay(b, Shard(c, b), ops) == Shard(ExecuteAll(c, ops), b)
    decreases |ops|
  {
    if ops != [] {
      CommitRefines(c, b, ops[0]);
      ClusterRefinesCentral(Execute(c, ops[0]), b, ops[1..]);
    }
  }

  // ---- ListAll -----------------------------------------------------------------------------------

  /** Rows know where they belong: the key of a row can be read off the row. */
  ghost predicate Keyed<R(!new)>(m: map<Key, R>, key: R -> Key) {
    forall k :: k in m ==> key(m[k]) == k
  }

  function IngenieroKey(): Ingeniero -> Key { (i: Ingeniero) => (i.sucursal, i.id) }

  function UsuarioKey(): Usuario -> Key { (u: Usuario) => (u.sucursal, u.id) }

  function DispositivoKey(): Dispositivo -> Key { (d: Dispositivo) => (d.sucursal, d.id) }

  function TicketKey(): Ticket -> Key { (t: Ticket) => (t.sucursal, t.id) }

  ghost predicate AllKeyed(c: Central) {
    && Keyed(c.ingenieros, IngenieroKey()) && Keyed(c.usuarios, UsuarioKey())
    && Keyed(c.dispositivos, DispositivoKey()) && Keyed(c.tickets, TicketKey())
  }

  lemma ExecuteKeepsKeys(c: Central, op: Op)
    requires AllKeyed(c)
    ensures AllKeyed(Execute(c, op))
  {
  }

  lemma {:induction false} CentralIsKeyed(c: Central, ops: seq<Op>)
    requires AllKeyed(c)
    ensures AllKeyed(ExecuteAll(c, ops))
    decreases |ops|
  {
    if ops != [] {
      ExecuteKeepsKeys(c, ops[0]);
      CentralIsKeyed(Execute(c, ops[0]), ops[1..]);
    }
  }

  /** `rows` lists a table: every row once, in any order. */
  ghost predicate Lists<R(!new)>(rows: seq<R>, m: map<int, R>) {
    multiset(rows) == multiset(m.Values)
  }

  function Concat<R>(lists: seq<seq<R>>): seq<R> {
    if lists == [] then [] else Concat(lists[..|lists| - 1]) + lists[|lists| - 1]
  }

  /** Each list stands after those before it and before those after it. */
  lemma {:induction false} ConcatInOrder<R>(lists: seq<seq<R>>, i: nat)
    requires i < |lists|
    ensures Concat(lists) == Concat(lists[..i]) + lists[i] + Concat(lists[i + 1..])
  {
    var last := |lists| - 1;
    if i < last {
      ConcatInOrder(lists[..last], i);
      assert lists[..last][..i] == lists[..i];
      assert lists[i + 1..][..last - i - 1] == lists[..last][i + 1..];
    }
  }

  /** The merge at the end of ListAll: local rows first, then the answers in order of arrival. */
  method Merge<R>(local: seq<R>, answers: seq<seq<R>>) returns (result: seq<R>)
    ensures result == Concat([local] + answers)
    ensures result == local + Concat(answers)
  {
    result := local;
    assert Concat([local]) == local by {
      assert [local][..0] == [];
      assert Concat([local]) == Concat<R>([]) + local;
    }
    for i := 0 to |answers|
      invariant result == Concat([local] + answers[..i])
      invariant result == local + Concat(answers[..i])
    {
      assert ([local] + answers[..i + 1])[..i + 1] == [local] + answers[..i];
      assert answers[..i + 1][..i] == answers[..i];
      result := result + answers[i];
    }
    assert answers[..|answers|] == answers;
  }

  /** The central rows of some branches. */
  ghost function RowsOf<R(!new)>(m: map<Key, R>, branches: set<int>): set<R> {
    set k | k in m && k.0 in branches :: m[k]
  }

  lemma BranchValues<R(!new)>(m: map<Key, R>, b: int)
    ensures Branch(m, b).Values == RowsOf(m, {b})
  {
    forall r | r in RowsOf(m, {b})
      ensures r in Branch(m, b).Values
    {
      var k :| k in m && k.0 == b && m[k] == r;
      assert Branch(m, b)[k.1] == r;
    }
  }

  lemma RowsSplit<R(!new)>(m: map<Key, R>, key: R -> Key, rest: set<int>, b: int)
    requires Keyed(m, key) && b !in rest
    ensures multiset(RowsOf(m, rest + {b})) == multiset(RowsOf(m, rest)) + multiset(RowsOf(m, {b}))
  {
    assert RowsOf(m, rest + {b}) == RowsOf(m, rest) + RowsOf(m, {b});
    assert forall r :: r in RowsOf(m, rest) ==> key(r).0 in rest;
    assert forall r :: r in RowsOf(m, {b}) ==> key(r).0 == b;
    assert RowsOf(m, rest) !! RowsOf(m, {b});
  }

  ghost function NodeSet(nodes: seq<int>): set<int> {
    set n | n in nodes
  }

  lemma LastNode(nodes: seq<int>)
    requires nodes != [] && Distinct(nodes)
    ensures var (rest, last) := (nodes[..|nodes| - 1], nodes[|nodes| - 1]);
      Distinct(rest) && last !in NodeSet(rest) && NodeSet(nodes) == NodeSet(rest) + {last}
  {
    assert nodes == nodes[..|nodes| - 1] + [nodes[|nodes| - 1]];
  }

  /** The rows of each branch, added up. */
  ghost function Gathered<R(!new)>(m: map<Key, R>, nodes: seq<int>): multiset<R> {
    if nodes == [] then multiset{}
    else Gathered(m, nodes[..|nodes| - 1]) + multiset(RowsOf(m, {nodes[|nodes| - 1]}))
  }

  lemma {:induction false} ListsAddUp<R(!new)>(m: map<Key, R>, nodes: seq<int>, lists: seq<seq<R>>)
    requires |lists| == |nodes| && forall i :: 0 <= i < |nodes| ==> Lists(lists[i], Branch(m, nodes[i]))
    ensures multiset(Concat(lists)) == Gathered(m, nodes)
  {
    if nodes != [] {
      var last := |nodes| - 1;
      ListsAddUp(m, nodes[..last], lists[..last]);
      assert Lists(lists[last], Branch(m, nodes[last]));
      BranchValues(m, nodes[last]);
    }
  }

  lemma {:induction false} BranchesAddUp<R(!new)>(m: map<Key, R>, key: R -> Key, nodes: seq<int>)
    requires Keyed(m, key) && Distinct(nodes)
    ensures Gathered(m, nodes) == multiset(RowsOf(m, NodeSet(nodes)))
  {
    if nodes == [] {
      assert RowsOf(m, NodeSet(nodes)) == {};
    } else {
      var rest, last := nodes[..|nodes| - 1], nodes[|nodes| - 1];
      LastNode(nodes);
      BranchesAddUp(m, key, rest);
      RowsSplit(m, key, NodeSet(rest), last);
    }
  }

  /**
   A ListAll answered by the nodes `nodes`, each once and in any order, is the central table restricted to
   their branches: no row is missing, none comes twice.
   */
  lemma GatherIsCentral<R(!new)>(m: map<Key, R>, key: R -> Key, nodes: seq<int>, lists: seq<seq<R>>)
    requires Keyed(m, key) && |lists| == |nodes| && Distinct(nodes)
    requires forall i :: 0 <= i < |nodes| ==> Lists(lists[i], Branch(m, nodes[i]))
    ensures multiset(Concat(lists)) == multiset(RowsOf(m, NodeSet(nodes)))
  {
    ListsAddUp(m, nodes, lists);
    BranchesAddUp(m, key, nodes);
  }

  lemma ShardsOfHistory(nodes: seq<int>, ops: seq<Op>)
    ensures AllKeyed(ExecuteAll(NOTHING, ops))
    ensures forall i :: 0 <= i < |nodes| ==> Replay(nodes[i], EMPTY, ops) == Shard(ExecuteAll(NOTHING, ops), nodes[i])
  {
    CentralIsKeyed(NOTHING, ops);
    forall i | 0 <= i < |nodes|
      ensures Replay(nodes[i], EMPTY, ops) == Shard(ExecuteAll(NOTHING, ops), nodes[i])
    {
      assert Shard(NOTHING, nodes[i]) == EMPTY;
      ClusterRefinesCentral(NOTHING, nodes[i], ops);
    }
  }

  lemma DevicesAreCentral(nodes: seq<int>, ops: seq<Op>, disps: seq<seq<Dispositivo>>)
    requires Distinct(nodes) && |disps| == |nodes|
    requires forall i :: 0 <= i < |nodes| ==> Lists(disps[i], Replay(nodes[i], EMPTY, ops).dispositivos)
    ensures multiset(Concat(disps)) == multiset(RowsOf(ExecuteAll(NOTHING, ops).dispositivos, NodeSet(nodes)))
  {
    ShardsOfHistory(nodes, ops);
    GatherIsCentral(ExecuteAll(NOTHING, ops).dispositivos, DispositivoKey(), nodes, disps);
  }

  /**
   Whatever has been committed since the tables were empty, gathering a table from the nodes gives the
   central table of their branches.
   */
  lemma ListAllIsCentral(nodes: seq<int>, ops: seq<Op>, ings: seq<seq<Ingeniero>>, usus: seq<seq<Usuario>>,
                         disps: seq<seq<Dispositivo>>, ticks: seq<seq<Ticket>>)
    requires Distinct(nodes) && |ings| == |usus| == |disps| == |ticks| == |nodes|
    requires forall i :: 0 <= i < |nodes| ==>
      var db := Replay(nodes[i], EMPTY, ops);
      && Lists(ings[i], db.ingenieros) && Lists(usus[i], db.usuarios)
      && Lists(disps[i], db.dispositivos) && Lists(ticks[i], db.tickets)
    ensures var (c, all) := (ExecuteAll(NOTHING, ops), NodeSet(nodes));
      && multiset(Concat(ings)) == multiset(RowsOf(c.ingenieros, all))
      && multiset(Concat(usus)) == multiset(RowsOf(c.usuarios, all))
      && multiset(Concat(disps)) == multiset(RowsOf(c.dispositivos, all))
      && multiset(Concat(ticks)) == multiset(RowsOf(c.tickets, all))
  {
    var c := ExecuteAll(NOTHING, ops);
    ShardsOfHistory(nodes, ops);
    GatherIsCentral(c.ingenieros, IngenieroKey(), nodes, ings);
    GatherIsCentral(c.usuarios, UsuarioKey(), nodes, usus);
    GatherIsCentral(c.dispositivos, DispositivoKey(), nodes, disps);
    GatherIsCentral(c.tickets, TicketKey(), nodes, ticks);
  }
}
