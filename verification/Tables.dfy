/**
 The tables of one node (internal/db/db.go) and the interpreter of committed operations
 (cmd/main.go, buildCommitHandler).  A table is a map from id to row; closing times are left out.
 */
module Tables {
  import opened Sequences

  datatype Ingeniero = Ingeniero(id: int, nombre: string, sucursal: int, disponible: int)

  datatype Usuario = Usuario(id: int, nombre: string, sucursal: int)

  datatype Dispositivo = Dispositivo(id: int, nombre: string, tipo: string, sucursal: int, ingeniero: int)

  datatype Ticket = Ticket(
    id: int, usuario: int, ingeniero: int, sucursal: int, dispositivo: int,
    estado: string, folio: string, createdAt: string)

  const ABIERTO := "ABIERTO"
  const CERRADO := "CERRADO"

  /** A committed operation with its decoded data; `Malformed` is data that does not decode. */
  datatype Op =
    | InsertUsuario(u: Usuario)
    | InsertIngeniero(i: Ingeniero)
    | InsertDispositivo(d: Dispositivo)
    | InsertTicket(t: Ticket)
    | ReassignTicket(t: Ticket)
    | UpdateTicketFolio(idTicket: int, folio: string)
    | CloseTicket(idTicket: int, idIngeniero: int)
    | UpdateIngenieroDisponible(idIngeniero: int, disponible: int)
    | Malformed
    | UnknownOperation

  datatype DB = DB(
    ingenieros: map<int, Ingeniero>,
    usuarios: map<int, Usuario>,
    dispositivos: map<int, Dispositivo>,
    tickets: map<int, Ticket>)

  const EMPTY := DB(map[], map[], map[], map[])

  /** INSERT OR IGNORE. */
  function Put<K, R>(m: map<K, R>, k: K, row: R): map<K, R> {
    if k in m then m else m[k := row]
  }

  /** UPDATE ... WHERE id=?. */
  function Change<R>(m: map<int, R>, id: int, f: R -> R): map<int, R> {
    if id in m then m[id := f(m[id])] else m
  }

  function SetDisponible(d: int): Ingeniero -> Ingeniero { (i: Ingeniero) => i.(disponible := d) }

  function SetFolio(folio: string): Ticket -> Ticket { (t: Ticket) => t.(folio := folio) }

  function SetEstado(estado: string): Ticket -> Ticket { (t: Ticket) => t.(estado := estado) }

  /** What one committed operation does to the tables of node `self`. */
  function Apply(self: int, db: DB, op: Op): DB {
    match op
    case InsertUsuario(u) => if u.sucursal != self then db else db.(usuarios := Put(db.usuarios, u.id, u))
    case InsertIngeniero(i) =>
      if i.sucursal != self then db else db.(ingenieros := Put(db.ingenieros, i.id, i.(disponible := 1)))
    case InsertDispositivo(d) =>
      if d.sucursal != self then db else db.(dispositivos := Put(db.dispositivos, d.id, d))
    case InsertTicket(t) => if t.sucursal != self then db else db.(tickets := Put(db.tickets, t.id, t))
    case ReassignTicket(t) => if t.sucursal != self then db else db.(tickets := Put(db.tickets, t.id, t))
    case UpdateTicketFolio(id, folio) => db.(tickets := Change(db.tickets, id, SetFolio(folio)))
    case CloseTicket(id, ing) =>
      db.(tickets := Change(db.tickets, id, SetEstado(CERRADO)),
          ingenieros := Change(db.ingenieros, ing, SetDisponible(1)))
    case UpdateIngenieroDisponible(ing, d) => db.(ingenieros := Change(db.ingenieros, ing, SetDisponible(d)))
    case Malformed => db
    case UnknownOperation => db
  }

  /**
   The same row by row.  Inserts keep every row that is there and add at most the row of this branch; updates add
   and remove no row and change one column of one row.
   */
  ghost predicate RowsAfter(self: int, db: DB, op: Op, db': DB) {
    UsuariosAfter(self, db, op, db') && IngenierosAfter(self, db, op, db')
    && DispositivosAfter(self, db, op, db') && TicketsAfter(self, db, op, db')
  }

  ghost predicate UsuariosAfter(self: int, db: DB, op: Op, db': DB) {
    && (forall x :: x in db'.usuarios <==>
      x in db.usuarios || (op.InsertUsuario? && op.u.id == x && op.u.sucursal == self))
    && (forall x :: x in db'.usuarios ==> db'.usuarios[x] == if x in db.usuarios then db.usuarios[x] else op.u)
  }

  ghost predicate IngenierosAfter(self: int, db: DB, op: Op, db': DB) {
    && (forall x :: x in db'.ingenieros <==>
      x in db.ingenieros || (op.InsertIngeniero? && op.i.id == x && op.i.sucursal == self))
    && (forall x :: x in db'.ingenieros ==>
      db'.ingenieros[x] ==
        if x !in db.ingenieros then Ingeniero(x, op.i.nombre, self, 1)
        else if op.CloseTicket? && op.idIngeniero == x then db.ingenieros[x].(disponible := 1)
        else if op.UpdateIngenieroDisponible? && op.idIngeniero == x then db.ingenieros[x].(disponible := op.disponible)
        else db.ingenieros[x])
  }

  ghost predicate DispositivosAfter(self: int, db: DB, op: Op, db': DB) {
    && (forall x :: x in db'.dispositivos <==>
      x in db.dispositivos || (op.InsertDispositivo? && op.d.id == x && op.d.sucursal == self))
    && (forall x :: x in db'.dispositivos ==>
      db'.dispositivos[x] == if x in db.dispositivos then db.dispositivos[x] else op.d)
  }

  ghost predicate TicketsAfter(self: int, db: DB, op: Op, db': DB) {
    && (forall x :: x in db'.tickets <==>
      x in db.tickets || ((op.InsertTicket? || op.ReassignTicket?) && op.t.id == x && op.t.sucursal == self))
    && (forall x :: x in db'.tickets ==>
      db'.tickets[x] ==
        if x !in db.tickets then op.t
        else if op.UpdateTicketFolio? && op.idTicket == x then db.tickets[x].(folio := op.folio)
        else if op.CloseTicket? && op.idTicket == x then db.tickets[x].(estado := "CERRADO")
        else db.tickets[x])
  }

  lemma RowByRow(self: int, db: DB, op: Op)
    ensures RowsAfter(self, db, op, Apply(self, db, op))
  {
  }

  function Replay(self: int, db: DB, ops: seq<Op>): DB
    decreases |ops|
  {
    if ops == [] then db else Replay(self, Apply(self, db, ops[0]), ops[1..])
  }

  /** What of a ticket a commit never changes, and that a closed ticket is never open again. */
  ghost predicate SameTicket(before: Ticket, after: Ticket) {
    && after == before.(estado := after.estado, folio := after.folio)
    && (before.estado == "CERRADO" ==> after.estado == "CERRADO")
  }

  /** Every row of `db` is in `db'`, with nothing but availability, state and folio changed. */
  ghost predicate RowsStay(db: DB, db': DB) {
    && (forall x :: x in db.usuarios ==> x in db'.usuarios && db'.usuarios[x] == db.usuarios[x])
    && (forall x :: x in db.dispositivos ==> x in db'.dispositivos && db'.dispositivos[x] == db.dispositivos[x])
    && (forall x :: x in db.ingenieros ==>
      x in db'.ingenieros && db'.ingenieros[x] == db.ingenieros[x].(disponible := db'.ingenieros[x].disponible))
    && (forall x :: x in db.tickets ==> x in db'.tickets && SameTicket(db.tickets[x], db'.tickets[x]))
  }

  /** No sequence of commits removes or replaces a row, whatever is inserted again under its id. */
  lemma {:induction false} NoRowIsReplaced(self: int, db: DB, ops: seq<Op>)
    ensures RowsStay(db, Replay(self, db, ops))
    decreases |ops|
  {
    if ops != [] {
      RowByRow(self, db, ops[0]);
      NoRowIsReplaced(self, Apply(self, db, ops[0]), ops[1..]);
    }
  }

  class Store {
    const self: int
    var ingenieros: map<int, Ingeniero>
    var usuarios: map<int, Usuario>
    var dispositivos: map<int, Dispositivo>
    var tickets: map<int, Ticket>

    ghost function Value(): DB
      reads this
    {
      DB(ingenieros, usuarios, dispositivos, tickets)
    }

    constructor (self: int)
      ensures this.self == self && Value() == EMPTY
    {
      this.self := self;
      ingenieros, usuarios, dispositivos, tickets := map[], map[], map[], map[];
    }

    method PutIngeniero(id: int, nombre: string, sucursal: int)
      modifies this`ingenieros
      ensures ingenieros == Put(old(ingenieros), id, Ingeniero(id, nombre, sucursal, 1))
      ensures id in old(ingenieros) ==> ingenieros == old(ingenieros)
      ensures id !in old(ingenieros) ==> ingenieros == old(ingenieros)[id := Ingeniero(id, nombre, sucursal, 1)]
    {
      if id !in ingenieros {
        ingenieros := ingenieros[id := Ingeniero(id, nombre, sucursal, 1)];
      }
    }

    method PutUsuario(id: int, nombre: string, sucursal: int)
      modifies this`usuarios
      ensures usuarios == Put(old(usuarios), id, Usuario(id, nombre, sucursal))
      ensures id in old(usuarios) ==> usuarios == old(usuarios)
      ensures id !in old(usuarios) ==> usuarios == old(usuarios)[id := Usuario(id, nombre, sucursal)]
    {
      if id !in usuarios {
        usuarios := usuarios[id := Usuario(id, nombre, sucursal)];
      }
    }

    method PutDispositivo(id: int, nombre: string, tipo: string, sucursal: int, ingeniero: int)
      modifies this`dispositivos
      ensures dispositivos == Put(old(dispositivos), id, Dispositivo(id, nombre, tipo, sucursal, ingeniero))
      ensures id in old(dispositivos) ==> dispositivos == old(dispositivos)
      ensures id !in old(dispositivos) ==>
        dispositivos == old(dispositivos)[id := Dispositivo(id, nombre, tipo, sucursal, ingeniero)]
    {
      if id !in dispositivos {
        dispositivos := dispositivos[id := Dispositivo(id, nombre, tipo, sucursal, ingeniero)];
      }
    }

    method PutTicket(t: Ticket)
      modifies this`tickets
      ensures tickets == Put(old(tickets), t.id, t)
      ensures t.id in old(tickets) ==> tickets == old(tickets)
      ensures t.id !in old(tickets) ==> tickets == old(tickets)[t.id := t]
    {
      if t.id !in tickets {
        tickets := tickets[t.id := t];
      }
    }

    method MarkFolio(id: int, folio: string)
      modifies this`tickets
      ensures tickets == Change(old(tickets), id, SetFolio(folio))
      ensures tickets.Keys == old(tickets).Keys
      ensures forall x :: x in tickets ==>
        tickets[x] == if x == id then old(tickets)[x].(folio := folio) else old(tickets)[x]
    {
      if id in tickets {
        tickets := tickets[id := tickets[id].(folio := folio)];
      }
    }

    method MarkClosed(id: int)
      modifies this`tickets
      ensures tickets == Change(old(tickets), id, SetEstado(CERRADO))
      ensures tickets.Keys == old(tickets).Keys
      ensures forall x :: x in tickets ==>
        tickets[x] == if x == id then old(tickets)[x].(estado := "CERRADO") else old(tickets)[x]
    {
      if id in tickets {
        tickets := tickets[id := tickets[id].(estado := CERRADO)];
      }
    }

    method MarkDisponible(id: int, d: int)
      modifies this`ingenieros
      ensures ingenieros == Change(old(ingenieros), id, SetDisponible(d))
      ensures ingenieros.Keys == old(ingenieros).Keys
      ensures forall x :: x in ingenieros ==>
        ingenieros[x] == if x == id then old(ingenieros)[x].(disponible := d) else old(ingenieros)[x]
    {
      if id in ingenieros {
        ingenieros := ingenieros[id := ingenieros[id].(disponible := d)];
      }
    }

    /** The commit handler: inserts are kept by the row's own branch, updates go by id on every node. */
    method Commit(op: Op) returns (ok: bool)
      modifies this
      ensures Value() == Apply(self, old(Value()), op)
      ensures RowsAfter(self, old(Value()), op, Value())
      ensures ok <==> !op.Malformed?
    {
      RowByRow(self, Value(), op);
      ok := true;
      match op {
        case InsertUsuario(u) =>
          if u.sucursal == self {
            PutUsuario(u.id, u.nombre, u.sucursal);
          }
        case InsertIngeniero(i) =>
          if i.sucursal == self {
            PutIngeniero(i.id, i.nombre, i.sucursal);
          }
        case InsertDispositivo(d) =>
          if d.sucursal == self {
            PutDispositivo(d.id, d.nombre, d.tipo, d.sucursal, d.ingeniero);
          }
        case InsertTicket(t) =>
          if t.sucursal == self {
            PutTicket(t);
          }
        case ReassignTicket(t) =>
          if t.sucursal == self {
            PutTicket(t);
          }
        case UpdateTicketFolio(id, folio) =>
          MarkFolio(id, folio);
        case CloseTicket(id, ing) =>
          MarkClosed(id);
          MarkDisponible(ing, 1);
        case UpdateIngenieroDisponible(ing, d) =>
          MarkDisponible(ing, d);
        case Malformed =>
          ok := false;
        case UnknownOperation =>
      }
    }
  }

  // ---- Which commits may be delivered in either order ----------------------------------------------

  /** The ticket row an operation inserts. */
  predicate InsertsTicket(op: Op) { op.InsertTicket? || op.ReassignTicket? }

  /** Why the order of `a` before `b` matters to somebody: the later one undoes or misses the earlier one. */
  predicate Overtakes(a: Op, b: Op) {
    || (a.InsertUsuario? && b.InsertUsuario? && a.u.id == b.u.id && a.u.sucursal == b.u.sucursal && a.u != b.u)
    || (a.InsertIngeniero? && b.InsertIngeniero? && a.i.id == b.i.id && a.i.sucursal == b.i.sucursal
        && a.i.nombre != b.i.nombre)
    || (a.InsertDispositivo? && b.InsertDispositivo? && a.d.id == b.d.id && a.d.sucursal == b.d.sucursal && a.d != b.d)
    || (InsertsTicket(a) && InsertsTicket(b) && a.t.id == b.t.id && a.t.sucursal == b.t.sucursal && a.t != b.t)
    || (InsertsTicket(a) && b.UpdateTicketFolio? && a.t.id == b.idTicket && a.t.folio != b.folio)
    || (InsertsTicket(a) && b.CloseTicket? && a.t.id == b.idTicket && a.t.estado != CERRADO)
    || (a.InsertIngeniero? && b.UpdateIngenieroDisponible? && a.i.id == b.idIngeniero && b.disponible != 1)
    || (a.UpdateTicketFolio? && b.UpdateTicketFolio? && a.idTicket == b.idTicket && a.folio != b.folio)
    || (a.CloseTicket? && b.UpdateIngenieroDisponible? && a.idIngeniero == b.idIngeniero && b.disponible != 1)
    || (a.UpdateIngenieroDisponible? && b.UpdateIngenieroDisponible? && a.idIngeniero == b.idIngeniero
        && a.disponible != b.disponible)
  }

  predicate Conflict(a: Op, b: Op) { Overtakes(a, b) || Overtakes(b, a) }

  ghost predicate SameEitherWay(self: int, db: DB, a: Op, b: Op) {
    Apply(self, Apply(self, db, a), b) == Apply(self, Apply(self, db, b), a)
  }

  /** What an operation does to one table. */
  datatype Effect<!R> = Skip | PutRow(id: int, row: R) | ChangeRow(id: int, f: R -> R)

  function Run<R>(m: map<int, R>, e: Effect<R>): map<int, R> {
    match e
    case Skip => m
    case PutRow(id, row) => Put(m, id, row)
    case ChangeRow(id, f) => Change(m, id, f)
  }

  ghost predicate Compatible<R(!new)>(a: Effect<R>, b: Effect<R>) {
    match (a, b)
    case (PutRow(i, r), PutRow(j, q)) => i != j || r == q
    case (PutRow(i, r), ChangeRow(j, f)) => i != j || f(r) == r
    case (ChangeRow(i, f), PutRow(j, r)) => i != j || f(r) == r
    case (ChangeRow(i, f), ChangeRow(j, g)) => i != j || forall r :: f(g(r)) == g(f(r))
    case _ => true
  }

  lemma CompatibleCommute<R(!new)>(m: map<int, R>, a: Effect<R>, b: Effect<R>)
    requires Compatible(a, b)
    ensures Run(Run(m, a), b) == Run(Run(m, b), a)
  {
  }

  function OnUsuarios(self: int, op: Op): Effect<Usuario> {
    if op.InsertUsuario? && op.u.sucursal == self then PutRow(op.u.id, op.u) else Skip
  }

  function OnDispositivos(self: int, op: Op): Effect<Dispositivo> {
    if op.InsertDispositivo? && op.d.sucursal == self then PutRow(op.d.id, op.d) else Skip
  }

  function OnIngenieros(self: int, op: Op): Effect<Ingeniero> {
    match op
    case InsertIngeniero(i) => if i.sucursal == self then PutRow(i.id, i.(disponible := 1)) else Skip
    case CloseTicket(_, ing) => ChangeRow(ing, SetDisponible(1))
    case UpdateIngenieroDisponible(ing, d) => ChangeRow(ing, SetDisponible(d))
    case _ => Skip
  }

  function OnTickets(self: int, op: Op): Effect<Ticket> {
    match op
    case InsertTicket(t) => if t.sucursal == self then PutRow(t.id, t) else Skip
    case ReassignTicket(t) => if t.sucursal == self then PutRow(t.id, t) else Skip
    case UpdateTicketFolio(id, folio) => ChangeRow(id, SetFolio(folio))
    case CloseTicket(id, _) => ChangeRow(id, SetEstado(CERRADO))
    case _ => Skip
  }

  lemma TableByTable(self: int, db: DB, op: Op)
    ensures Apply(self, db, op) == DB(
      Run(db.ingenieros, OnIngenieros(self, op)),
      Run(db.usuarios, OnUsuarios(self, op)),
      Run(db.dispositivos, OnDispositivos(self, op)),
      Run(db.tickets, OnTickets(self, op)))
  {
  }

  lemma NoConflictCompatible(self: int, a: Op, b: Op)
    requires !Conflict(a, b)
    ensures Compatible(OnUsuarios(self, a), OnUsuarios(self, b))
    ensures Compatible(OnDispositivos(self, a), OnDispositivos(self, b))
    ensures Compatible(OnIngenieros(self, a), OnIngenieros(self, b))
    ensures Compatible(OnTickets(self, a), OnTickets(self, b))
  {
  }

  /** Operations that do not conflict may reach any node in either order. */
  lemma NoConflictCommutes(self: int, db: DB, a: Op, b: Op)
    requires !Conflict(a, b)
    ensures SameEitherWay(self, db, a, b)
  {
    NoConflictCompatible(self, a, b);
    TableByTable(self, db, a);
    TableByTable(self, db, b);
    TableByTable(self, Apply(self, db, a), b);
    TableByTable(self, Apply(self, db, b), a);
    CompatibleCommute(db.usuarios, OnUsuarios(self, a), OnUsuarios(self, b));
    CompatibleCommute(db.dispositivos, OnDispositivos(self, a), OnDispositivos(self, b));
    CompatibleCommute(db.ingenieros, OnIngenieros(self, a), OnIngenieros(self, b));
    CompatibleCommute(db.tickets, OnTickets(self, a), OnTickets(self, b));
  }

  /** The node and the tables that show a conflict: the branch of the inserted row, and the row to be changed. */
  function Witness(a: Op, b: Op): (int, DB) {
    match a
    case InsertUsuario(u) => (u.sucursal, EMPTY)
    case InsertIngeniero(i) => (i.sucursal, EMPTY)
    case InsertDispositivo(d) => (d.sucursal, EMPTY)
    case InsertTicket(t) => (t.sucursal, EMPTY)
    case ReassignTicket(t) => (t.sucursal, EMPTY)
    case UpdateTicketFolio(id, _) => (0, EMPTY.(tickets := map[id := Ticket(id, 0, 0, 0, 0, ABIERTO, "", "")]))
    case CloseTicket(_, ing) => (0, EMPTY.(ingenieros := map[ing := Ingeniero(ing, "", 0, 1)]))
    case UpdateIngenieroDisponible(ing, _) => (0, EMPTY.(ingenieros := map[ing := Ingeniero(ing, "", 0, 1)]))
    case _ => (0, EMPTY)
  }

  lemma OvertakingShows(a: Op, b: Op)
    requires Overtakes(a, b)
    ensures var (self, db) := Witness(a, b); !SameEitherWay(self, db, a, b)
  {
    var (self, db) := Witness(a, b);
    var ab, ba := Apply(self, Apply(self, db, a), b), Apply(self, Apply(self, db, b), a);
    match a
    case InsertUsuario(u) => assert ab.usuarios[u.id] != ba.usuarios[u.id];
    case InsertIngeniero(i) => assert ab.ingenieros[i.id] != ba.ingenieros[i.id];
    case InsertDispositivo(d) => assert ab.dispositivos[d.id] != ba.dispositivos[d.id];
    case InsertTicket(t) => assert ab.tickets[t.id] != ba.tickets[t.id];
    case ReassignTicket(t) => assert ab.tickets[t.id] != ba.tickets[t.id];
    case UpdateTicketFolio(id, _) => assert ab.tickets[id] != ba.tickets[id];
    case CloseTicket(_, ing) => assert ab.ingenieros[ing] != ba.ingenieros[ing];
    case UpdateIngenieroDisponible(ing, _) => assert ab.ingenieros[ing] != ba.ingenieros[ing];
  }

  lemma ConflictShows(a: Op, b: Op) returns (self: int, db: DB)
    requires Conflict(a, b)
    ensures !SameEitherWay(self, db, a, b)
  {
    if Overtakes(a, b) {
      OvertakingShows(a, b);
      self, db := Witness(a, b).0, Witness(a, b).1;
    } else {
      OvertakingShows(b, a);
      self, db := Witness(b, a).0, Witness(b, a).1;
    }
  }

  /** Exactly the conflicting pairs of commits are sensitive to the order of delivery. */
  lemma OrderMattersIffConflict(a: Op, b: Op)
    ensures Conflict(a, b) <==> exists self, db :: !SameEitherWay(self, db, a, b)
  {
    if Conflict(a, b) {
      var self, db := ConflictShows(a, b);
    } else {
      forall self, db
        ensures SameEitherWay(self, db, a, b)
      {
        NoConflictCommutes(self, db, a, b);
      }
    }
  }

  // ---- Convergence -------------------------------------------------------------------------------

  ghost predicate ConflictFree(ops: seq<Op>) {
    forall x, y :: x in ops && y in ops ==> !Conflict(x, y)
  }

  lemma {:induction false} ReplayAppend(self: int, db: DB, a: seq<Op>, b: seq<Op>)
    ensures Replay(self, db, a + b) == Replay(self, Replay(self, db, a), b)
    decreases |a|
  {
    if a == [] {
      assert a + b == b;
    } else {
      assert (a + b)[1..] == a[1..] + b;
      ReplayAppend(self, Apply(self, db, a[0]), a[1..], b);
    }
  }

  /** An operation that conflicts with none of those before it may be delivered first. */
  lemma {:induction false} DeliverFirst(self: int, db: DB, before: seq<Op>, op: Op)
    requires forall x :: x in before ==> !Conflict(x, op)
    ensures Replay(self, db, before + [op]) == Replay(self, db, [op] + before)
    decreases |before|
  {
    if before != [] {
      var db1 := Apply(self, db, before[0]);
      assert (before + [op])[1..] == before[1..] + [op];
      DeliverFirst(self, db1, before[1..], op);
      NoConflictCommutes(self, db, before[0], op);
      assert ([op] + before)[1..] == before && ([op] + before[1..])[1..] == before[1..];
    } else {
      assert before + [op] == [op] + before;
    }
  }

  lemma MoveToFront(self: int, db: DB, before: seq<Op>, op: Op, after: seq<Op>)
    requires forall x :: x in before ==> !Conflict(x, op)
    ensures Replay(self, db, before + [op] + after) == Replay(self, Apply(self, db, op), before + after)
  {
    DeliverFirst(self, db, before, op);
    ReplayAppend(self, db, before + [op], after);
    ReplayAppend(self, db, [op] + before, after);
    assert ([op] + before + after)[1..] == before + after;
  }

  lemma ConflictFreeTail(ops: seq<Op>)
    requires ops != [] && ConflictFree(ops)
    ensures ConflictFree(ops[1..])
  {
  }

  /** Any permutation of commits without conflicts leaves a node with the same tables. */
  lemma {:induction false} Converges(self: int, db: DB, a: seq<Op>, b: seq<Op>)
    requires ConflictFree(a) && multiset(a) == multiset(b)
    ensures Replay(self, db, a) == Replay(self, db, b)
    decreases |a|
  {
    if a == [] {
      assert |multiset(b)| == 0;
    } else {
      var before, after := FindHead(a, b);
      SameMembers(b, a);
      assert forall x :: x in before ==> x in b;
      MoveToFront(self, db, before, a[0], after);
      ConflictFreeTail(a);
      Converges(self, Apply(self, db, a[0]), a[1..], before + after);
    }
  }

  predicate Inserts(op: Op) {
    op.InsertUsuario? || op.InsertIngeniero? || op.InsertDispositivo? || InsertsTicket(op)
  }

  /** The table an insert goes to and the id of its row. */
  function Target(op: Op): (int, int)
    requires Inserts(op)
  {
    match op
    case InsertUsuario(u) => (0, u.id)
    case InsertIngeniero(i) => (1, i.id)
    case InsertDispositivo(d) => (2, d.id)
    case InsertTicket(t) => (3, t.id)
    case ReassignTicket(t) => (3, t.id)
  }

  /** Inserts with pairwise distinct ids per table converge in every order of delivery. */
  lemma InsertsConverge(self: int, db: DB, a: seq<Op>, b: seq<Op>)
    requires forall x :: x in a ==> Inserts(x)
    requires forall x, y :: x in a && y in a && x != y ==> Target(x) != Target(y)
    requires multiset(a) == multiset(b)
    ensures Replay(self, db, a) == Replay(self, db, b)
  {
    Converges(self, db, a, b);
  }

  /** A commit that is delivered twice in a row does what one delivery does. */
  lemma DeliveredTwiceIsOnce(self: int, db: DB, op: Op)
    ensures Apply(self, Apply(self, db, op), op) == Apply(self, db, op)
  {
    TableByTable(self, db, op);
    TableByTable(self, Apply(self, db, op), op);
    TwiceIsOnce(db.ingenieros, OnIngenieros(self, op));
    TwiceIsOnce(db.usuarios, OnUsuarios(self, op));
    TwiceIsOnce(db.dispositivos, OnDispositivos(self, op));
    TwiceIsOnce(db.tickets, OnTickets(self, op));
  }

  lemma TwiceIsOnce<R(!new)>(m: map<int, R>, e: Effect<R>)
    requires e.ChangeRow? ==> forall r :: e.f(e.f(r)) == e.f(r)
    ensures Run(Run(m, e), e) == Run(m, e)
  {
  }
}
