/**
 Row ids (internal/service/ticket_service.go: newID, SetMinIDCounter) and the seeding of a node's tables
 (internal/db/seed.go).  The counter is shared by all goroutines of a process: newID is one atomic add,
 SetMinIDCounter a compare-and-swap loop whose load and swap may be far apart.
 */
module Ids {
  import opened Tables

  const SPAN: int := 10_000_000_000

  function MakeID(node: int, counter: int): int { node * SPAN + counter }

  /** While the counter stays below 10^10, node and counter can be read off an id. */
  lemma NodeAndCounterRecoverable(node: int, counter: int)
    requires 0 <= counter < 10_000_000_000
    ensures MakeID(node, counter) / 10_000_000_000 == node && MakeID(node, counter) % 10_000_000_000 == counter
  {
  }

  /** So ids below that bound collide, across processes too, exactly if they agree in node and counter. */
  lemma CollideExactly(a: int, m: int, b: int, n: int)
    requires 0 <= m < 10_000_000_000 && 0 <= n < 10_000_000_000
    ensures MakeID(a, m) == MakeID(b, n) <==> a == b && m == n
  {
    NodeAndCounterRecoverable(a, m);
    NodeAndCounterRecoverable(b, n);
  }

  // ---- Interleaved use of the counter ----------------------------------------------------------------

  /** `loaded` are the SetMinIDCounter calls between their load and their compare-and-swap. */
  datatype Call = Call(seen: int, min: int)

  datatype State = State(counter: int, loaded: multiset<Call>, issued: seq<(int, int)>)

  datatype Step = NewID(node: int) | Load(min: int) | Swap(call: Call)

  predicate Enabled(s: State, step: Step) {
    match step
    case NewID(_) => true
    case Load(min) => s.counter < min
    case Swap(call) => call in s.loaded
  }

  /** A failed swap loads again: it either returns or stays in the loop with the value it now sees. */
  function Do(s: State, step: Step): State
    requires Enabled(s, step)
  {
    match step
    case NewID(node) => s.(counter := s.counter + 1, issued := s.issued + [(node, s.counter + 1)])
    case Load(min) => s.(loaded := s.loaded + multiset{Call(s.counter, min)})
    case Swap(call) =>
      var rest := s.loaded - multiset{call};
      if s.counter == call.seen then s.(counter := call.min, loaded := rest)
      else if s.counter >= call.min then s.(loaded := rest)
      else s.(loaded := rest + multiset{Call(s.counter, call.min)})
  }

  ghost predicate Inv(s: State) {
    && (forall k :: k in s.loaded ==> k.seen < k.min)
    && (forall i :: 0 <= i < |s.issued| ==> s.issued[i].1 <= s.counter)
    && (forall i, j :: 0 <= i < j < |s.issued| ==> s.issued[i].1 < s.issued[j].1)
  }

  /** Each step keeps the issued counters increasing and never lowers the counter. */
  lemma StepInv(s: State, step: Step)
    requires Inv(s) && Enabled(s, step)
    ensures Inv(Do(s, step)) && Do(s, step).counter >= s.counter
  {
  }

  /** A call of SetMinIDCounter finishes only when the counter has reached its minimum; else it loads again. */
  lemma SwapReachesMinimum(s: State, call: Call)
    requires Inv(s) && call in s.loaded
    ensures var s' := Do(s, Swap(call));
      s'.counter >= call.min || Call(s'.counter, call.min) in s'.loaded
  {
  }

  ghost predicate Runs(s: State, steps: seq<Step>)
    decreases |steps|
  {
    steps != [] ==> Enabled(s, steps[0]) && Runs(Do(s, steps[0]), steps[1..])
  }

  ghost function End(s: State, steps: seq<Step>): State
    requires Runs(s, steps)
    decreases |steps|
  {
    if steps == [] then s else End(Do(s, steps[0]), steps[1..])
  }

  lemma {:induction false} RunKeeps(s: State, steps: seq<Step>)
    requires Inv(s) && Runs(s, steps)
    ensures Inv(End(s, steps)) && End(s, steps).counter >= s.counter
    ensures s.issued <= End(s, steps).issued
    ensures forall i :: |s.issued| <= i < |End(s, steps).issued| ==> End(s, steps).issued[i].1 > s.counter
    decreases |steps|
  {
    if steps != [] {
      StepInv(s, steps[0]);
      RunKeeps(Do(s, steps[0]), steps[1..]);
    }
  }

  /** All ids a process draws are distinct while its counter stays below 10^10, for whatever nodes it draws them. */
  lemma IdsAreUnique(s: State, steps: seq<Step>, i: nat, j: nat)
    requires s.issued == [] && s.loaded == multiset{} && 0 <= s.counter && Runs(s, steps)
    requires End(s, steps).counter < 10_000_000_000 && i < j < |End(s, steps).issued|
    ensures var (a, b) := (End(s, steps).issued[i], End(s, steps).issued[j]); MakeID(a.0, a.1) != MakeID(b.0, b.1)
  {
    RunKeeps(s, steps);
    var a, b := End(s, steps).issued[i], End(s, steps).issued[j];
    NodeAndCounterRecoverable(a.0, a.1);
    NodeAndCounterRecoverable(b.0, b.1);
  }

  function Max(a: int, b: int): int { if a < b then b else a }

  class Counter {
    var value: int

    constructor (value: int)
      ensures this.value == value
    {
      this.value := value;
    }

    method NewID(node: int) returns (id: int)
      modifies this
      ensures value == old(value) + 1 && id == MakeID(node, value) == node * 10_000_000_000 + value
    {
      value := value + 1;
      id := node * SPAN + value;
    }

    /**
     SetMinIDCounter.  `others[k]` is the number of ids that other goroutines draw between the load and the
     compare-and-swap of pass k; a pass that was interfered with starts over.
     */
    method SetMin(min: int, others: seq<nat>)
      modifies this
      ensures value == Raised(old(value), min, others)
    {
      var k := 0;
      while true
        invariant 0 <= k <= |others|
        invariant Raised(value, min, others[k..]) == Raised(old(value), min, others)
        decreases |others| - k
      {
        var cur := value;
        if cur >= min {
          return;
        }
        value := value + if k < |others| then others[k] else 0;
        if value == cur {
          value := min;
          return;
        }
        k := k + 1;
      }
    }
  }

  function Raised(value: int, min: int, others: seq<nat>): int
    decreases |others|
  {
    if value >= min then value
    else if others == [] || others[0] == 0 then min
    else Raised(value + others[0], min, others[1..])
  }

  function Total(others: seq<nat>): nat {
    if others == [] then 0 else others[0] + Total(others[1..])
  }

  /** It ends at the minimum or above, keeps every id drawn meanwhile, and overshoots by no more than those. */
  lemma {:induction false} SetMinRaises(value: int, min: int, others: seq<nat>)
    ensures Raised(value, min, others) >= Max(value, min)
    ensures Raised(value, min, others) <= Max(value + Total(others), min)
    decreases |others|
  {
    if value < min && others != [] && others[0] > 0 {
      SetMinRaises(value + others[0], min, others[1..]);
    }
  }

  // ---- Seeding -----------------------------------------------------------------------------------

  datatype SeedData = SeedData(ingenieros: seq<Ingeniero>, usuarios: seq<Usuario>, dispositivos: seq<Dispositivo>)

  function IngenieroOps(rows: seq<Ingeniero>): seq<Op> {
    seq(|rows|, i requires 0 <= i < |rows| => InsertIngeniero(rows[i]))
  }

  function UsuarioOps(rows: seq<Usuario>): seq<Op> {
    seq(|rows|, i requires 0 <= i < |rows| => InsertUsuario(rows[i]))
  }

  function DispositivoOps(rows: seq<Dispositivo>): seq<Op> {
    seq(|rows|, i requires 0 <= i < |rows| => InsertDispositivo(rows[i]))
  }

  /** Seeding is the commit of all seed rows: the commit handler's branch filter is the filter of the loops. */
  function SeedOps(data: SeedData): seq<Op> {
    IngenieroOps(data.ingenieros) + UsuarioOps(data.usuarios) + DispositivoOps(data.dispositivos)
  }

  /** `id` is the id of a seed row of branch `node`. */
  ghost predicate Seeded(data: SeedData, node: int, id: int) {
    || (exists r :: r in data.ingenieros && r.sucursal == node && r.id == id)
    || (exists r :: r in data.usuarios && r.sucursal == node && r.id == id)
    || (exists r :: r in data.dispositivos && r.sucursal == node && r.id == id)
  }

  lemma OneMore(self: int, db: DB, ops: seq<Op>, i: nat)
    requires i < |ops|
    ensures Replay(self, db, ops[..i + 1]) == Apply(self, Replay(self, db, ops[..i]), ops[i])
  {
    assert ops[..i + 1] == ops[..i] + [ops[i]];
    ReplayAppend(self, db, ops[..i], [ops[i]]);
    assert [ops[i]][1..] == [];
  }

  // The table of a node once a list of rows is inserted; `here` tells its own rows and `id` reads their ids.

  ghost predicate HasRow<R(!new)>(rows: seq<R>, here: R -> bool, id: R -> int, x: int) {
    exists r :: r in rows && here(r) && id(r) == x
  }

  /** Row i is the first of its id. */
  ghost predicate FirstAt<R(!new)>(rows: seq<R>, here: R -> bool, id: R -> int, i: int) {
    0 <= i < |rows| && here(rows[i]) && !HasRow(rows[..i], here, id, id(rows[i]))
  }

  /** No row that is there is replaced; every id of the list has a row, a new one that of its first row. */
  ghost predicate Inserted<R(!new)>(rows: seq<R>, here: R -> bool, id: R -> int, before: map<int, R>,
                                    after: map<int, R>) {
    && (forall x :: x in after <==> x in before || HasRow(rows, here, id, x))
    && (forall x :: x in before && x in after ==> after[x] == before[x])
    && (forall i :: FirstAt(rows, here, id, i) && id(rows[i]) in after && id(rows[i]) !in before ==>
      after[id(rows[i])] == rows[i])
  }

  lemma HasOneMore<R(!new)>(rows: seq<R>, here: R -> bool, id: R -> int, r: R, x: int)
    ensures HasRow(rows + [r], here, id, x) <==> HasRow(rows, here, id, x) || (here(r) && id(r) == x)
  {
    assert forall q :: q in rows + [r] <==> q in rows || q == r;
  }

  lemma InsertedOneMore<R(!new)>(rows: seq<R>, here: R -> bool, id: R -> int, before: map<int, R>, mid: map<int, R>,
                                 after: map<int, R>, r: R)
    requires Inserted(rows, here, id, before, mid)
    requires after == if here(r) && id(r) !in mid then mid[id(r) := r] else mid
    ensures Inserted(rows + [r], here, id, before, after)
  {
    var rows' := rows + [r];
    forall x
      ensures x in after <==> x in before || HasRow(rows', here, id, x)
    {
      HasOneMore(rows, here, id, r, x);
    }
    forall i | FirstAt(rows', here, id, i) && id(rows'[i]) in after && id(rows'[i]) !in before
      ensures after[id(rows'[i])] == rows'[i]
    {
      if i < |rows| {
        assert rows'[..i] == rows[..i] && FirstAt(rows, here, id, i);
        HasOneMore(rows, here, id, r, id(rows[i]));
        assert rows[i] in rows;
      } else {
        assert rows'[..i] == rows;
      }
    }
  }

  function EngineerOf(node: int): Ingeniero -> bool { (r: Ingeniero) => r.sucursal == node }
  function EngineerID(): Ingeniero -> int { (r: Ingeniero) => r.id }
  function UserOf(node: int): Usuario -> bool { (r: Usuario) => r.sucursal == node }
  function UserID(): Usuario -> int { (r: Usuario) => r.id }
  function DeviceOf(node: int): Dispositivo -> bool { (r: Dispositivo) => r.sucursal == node }
  function DeviceID(): Dispositivo -> int { (r: Dispositivo) => r.id }

  /** New engineers are available, whatever the seed says. */
  function Available(rows: seq<Ingeniero>): (out: seq<Ingeniero>)
    ensures |out| == |rows| && forall i :: 0 <= i < |rows| ==> out[i] == rows[i].(disponible := 1)
  {
    seq(|rows|, i requires 0 <= i < |rows| => rows[i].(disponible := 1))
  }

  lemma {:induction false} IngenierosInserted(self: int, db: DB, rows: seq<Ingeniero>)
    ensures var db' := Replay(self, db, IngenieroOps(rows));
      && db' == db.(ingenieros := db'.ingenieros)
      && Inserted(Available(rows), EngineerOf(self), EngineerID(), db.ingenieros, db'.ingenieros)
  {
    if rows != [] {
      var n, ops := |rows| - 1, IngenieroOps(rows);
      IngenierosInserted(self, db, rows[..n]);
      assert ops[..n] == IngenieroOps(rows[..n]) && ops[..n + 1] == ops;
      OneMore(self, db, ops, n);
      InsertedOneMore(Available(rows[..n]), EngineerOf(self), EngineerID(), db.ingenieros,
                      Replay(self, db, ops[..n]).ingenieros, Replay(self, db, ops).ingenieros, Available(rows)[n]);
      assert Available(rows) == Available(rows[..n]) + [Available(rows)[n]];
    }
  }

  lemma {:induction false} UsuariosInserted(self: int, db: DB, rows: seq<Usuario>)
    ensures var db' := Replay(self, db, UsuarioOps(rows));
      && db' == db.(usuarios := db'.usuarios)
      && Inserted(rows, UserOf(self), UserID(), db.usuarios, db'.usuarios)
  {
    if rows != [] {
      var n, ops := |rows| - 1, UsuarioOps(rows);
      UsuariosInserted(self, db, rows[..n]);
      assert ops[..n] == UsuarioOps(rows[..n]) && ops[..n + 1] == ops;
      OneMore(self, db, ops, n);
      InsertedOneMore(rows[..n], UserOf(self), UserID(), db.usuarios, Replay(self, db, ops[..n]).usuarios,
                      Replay(self, db, ops).usuarios, rows[n]);
      assert rows == rows[..n] + [rows[n]];
    }
  }

  lemma {:induction false} DispositivosInserted(self: int, db: DB, rows: seq<Dispositivo>)
    ensures var db' := Replay(self, db, DispositivoOps(rows));
      && db' == db.(dispositivos := db'.dispositivos)
      && Inserted(rows, DeviceOf(self), DeviceID(), db.dispositivos, db'.dispositivos)
  {
    if rows != [] {
      var n, ops := |rows| - 1, DispositivoOps(rows);
      DispositivosInserted(self, db, rows[..n]);
      assert ops[..n] == DispositivoOps(rows[..n]) && ops[..n + 1] == ops;
      OneMore(self, db, ops, n);
      InsertedOneMore(rows[..n], DeviceOf(self), DeviceID(), db.dispositivos, Replay(self, db, ops[..n]).dispositivos,
                      Replay(self, db, ops).dispositivos, rows[n]);
      assert rows == rows[..n] + [rows[n]];
    }
  }

  /** The three tables after a first boot of node `self`; the tickets are not touched. */
  ghost predicate Stocked(self: int, data: SeedData, db: DB, db': DB) {
    && Inserted(Available(data.ingenieros), EngineerOf(self), EngineerID(), db.ingenieros, db'.ingenieros)
    && Inserted(data.usuarios, UserOf(self), UserID(), db.usuarios, db'.usuarios)
    && Inserted(data.dispositivos, DeviceOf(self), DeviceID(), db.dispositivos, db'.dispositivos)
    && db'.tickets == db.tickets
  }

  /** Which rows those are: the ids there before and those of the data's rows of branch `self`, and no others. */
  lemma StockedIDs(self: int, data: SeedData, db: DB, db': DB)
    requires Stocked(self, data, db, db')
    ensures forall x :: x in db'.ingenieros <==>
      x in db.ingenieros || exists r :: r in data.ingenieros && r.sucursal == self && r.id == x
    ensures forall x :: x in db'.usuarios <==>
      x in db.usuarios || exists r :: r in data.usuarios && r.sucursal == self && r.id == x
    ensures forall x :: x in db'.dispositivos <==>
      x in db.dispositivos || exists r :: r in data.dispositivos && r.sucursal == self && r.id == x
  {
    var rows := Available(data.ingenieros);
    forall x
      ensures HasRow(rows, EngineerOf(self), EngineerID(), x) <==>
        exists r :: r in data.ingenieros && r.sucursal == self && r.id == x
    {
      if r :| r in data.ingenieros && r.sucursal == self && r.id == x {
        var i :| 0 <= i < |rows| && data.ingenieros[i] == r;
        assert rows[i] in rows;
      }
      if HasRow(rows, EngineerOf(self), EngineerID(), x) {
        var r :| r in rows && EngineerOf(self)(r) && EngineerID()(r) == x;
        var i :| 0 <= i < |rows| && rows[i] == r;
        assert data.ingenieros[i] in data.ingenieros;
      }
    }
  }

  lemma SeedStocks(self: int, db: DB, data: SeedData)
    ensures Stocked(self, data, db, Replay(self, db, SeedOps(data)))
  {
    var ops := IngenieroOps(data.ingenieros);
    IngenierosInserted(self, db, data.ingenieros);
    var db1 := Replay(self, db, ops);
    ReplayAppend(self, db, ops, UsuarioOps(data.usuarios));
    UsuariosInserted(self, db1, data.usuarios);
    var db2 := Replay(self, db1, UsuarioOps(data.usuarios));
    ReplayAppend(self, db, ops + UsuarioOps(data.usuarios), DispositivoOps(data.dispositivos));
    DispositivosInserted(self, db2, data.dispositivos);
  }

  method SeedIngenieros(store: Store, rows: seq<Ingeniero>, start: int) returns (max: int)
    modifies store`ingenieros
    ensures store.Value() == Replay(store.self, old(store.Value()), IngenieroOps(rows))
    ensures max >= start && forall r :: r in rows && r.sucursal == store.self ==> r.id - store.self * SPAN <= max
    ensures max == start || exists r :: r in rows && r.sucursal == store.self && r.id == MakeID(store.self, max)
  {
    max := start;
    ghost var ops := IngenieroOps(rows);
    for i := 0 to |rows|
      invariant store.Value() == Replay(store.self, old(store.Value()), ops[..i])
      invariant max >= start
      invariant forall r :: r in rows[..i] && r.sucursal == store.self ==> r.id - store.self * SPAN <= max
      invariant max == start ||
        exists r :: r in rows[..i] && r.sucursal == store.self && r.id == MakeID(store.self, max)
    {
      OneMore(store.self, old(store.Value()), ops, i);
      assert rows[..i + 1] == rows[..i] + [rows[i]];
      if rows[i].sucursal == store.self {
        store.PutIngeniero(rows[i].id, rows[i].nombre, rows[i].sucursal);
        if rows[i].id - store.self * SPAN > max {
          max := rows[i].id - store.self * SPAN;
        }
      }
    }
    assert ops[..|rows|] == ops && rows[..|rows|] == rows;
  }

  method SeedUsuarios(store: Store, rows: seq<Usuario>, start: int) returns (max: int)
    modifies store`usuarios
    ensures store.Value() == Replay(store.self, old(store.Value()), UsuarioOps(rows))
    ensures max >= start && forall r :: r in rows && r.sucursal == store.self ==> r.id - store.self * SPAN <= max
    ensures max == start || exists r :: r in rows && r.sucursal == store.self && r.id == MakeID(store.self, max)
  {
    max := start;
    ghost var ops := UsuarioOps(rows);
    for i := 0 to |rows|
      invariant store.Value() == Replay(store.self, old(store.Value()), ops[..i])
      invariant max >= start
      invariant forall r :: r in rows[..i] && r.sucursal == store.self ==> r.id - store.self * SPAN <= max
      invariant max == start ||
        exists r :: r in rows[..i] && r.sucursal == store.self && r.id == MakeID(store.self, max)
    {
      OneMore(store.self, old(store.Value()), ops, i);
      assert rows[..i + 1] == rows[..i] + [rows[i]];
      if rows[i].sucursal == store.self {
        store.PutUsuario(rows[i].id, rows[i].nombre, rows[i].sucursal);
        if rows[i].id - store.self * SPAN > max {
          max := rows[i].id - store.self * SPAN;
        }
      }
    }
    assert ops[..|rows|] == ops && rows[..|rows|] == rows;
  }

  method SeedDispositivos(store: Store, rows: seq<Dispositivo>, start: int) returns (max: int)
    modifies store`dispositivos
    ensures store.Value() == Replay(store.self, old(store.Value()), DispositivoOps(rows))
    ensures max >= start && forall r :: r in rows && r.sucursal == store.self ==> r.id - store.self * SPAN <= max
    ensures max == start || exists r :: r in rows && r.sucursal == store.self && r.id == MakeID(store.self, max)
  {
    max := start;
    ghost var ops := DispositivoOps(rows);
    for i := 0 to |rows|
      invariant store.Value() == Replay(store.self, old(store.Value()), ops[..i])
      invariant max >= start
      invariant forall r :: r in rows[..i] && r.sucursal == store.self ==> r.id - store.self * SPAN <= max
      invariant max == start ||
        exists r :: r in rows[..i] && r.sucursal == store.self && r.id == MakeID(store.self, max)
    {
      OneMore(store.self, old(store.Value()), ops, i);
      assert rows[..i + 1] == rows[..i] + [rows[i]];
      var d := rows[i];
      if d.sucursal == store.self {
        store.PutDispositivo(d.id, d.nombre, d.tipo, d.sucursal, d.ingeniero);
        if d.id - store.self * SPAN > max {
          max := d.id - store.self * SPAN;
        }
      }
    }
    assert ops[..|rows|] == ops && rows[..|rows|] == rows;
  }

  /**
   Seed: a node that already has engineers is left alone; otherwise its rows of the three lists are inserted
   and the largest counter that their ids use is returned.
   */
  method Seed(store: Store, data: SeedData) returns (maxCounter: int)
    modifies store
    ensures old(store.ingenieros) != map[] ==> maxCounter == 0 && store.Value() == old(store.Value())
    ensures old(store.ingenieros) == map[] ==>
      store.Value() == Replay(store.self, old(store.Value()), SeedOps(data))
    ensures old(store.ingenieros) == map[] ==> Stocked(store.self, data, old(store.Value()), store.Value())
    ensures old(store.ingenieros) == map[] ==>
      forall id :: Seeded(data, store.self, id) ==> id <= MakeID(store.self, maxCounter)
    ensures maxCounter > 0 ==> Seeded(data, store.self, MakeID(store.self, maxCounter))
    ensures maxCounter >= 0
  {
    if |store.ingenieros| > 0 {
      return 0;
    }
    SeedStocks(store.self, store.Value(), data);
    ReplayAppend(store.self, store.Value(), IngenieroOps(data.ingenieros), UsuarioOps(data.usuarios));
    ReplayAppend(store.self, store.Value(), IngenieroOps(data.ingenieros) + UsuarioOps(data.usuarios),
                 DispositivoOps(data.dispositivos));
    maxCounter := SeedIngenieros(store, data.ingenieros, 0);
    maxCounter := SeedUsuarios(store, data.usuarios, maxCounter);
    maxCounter := SeedDispositivos(store, data.dispositivos, maxCounter);
  }

  /** No run of the counter that starts at `counter` draws the id `id` for `node`. */
  ghost predicate NeverDraws(node: int, counter: int, id: int) {
    forall s, steps, i :: Inv(s) && s.counter == counter && Runs(s, steps) && |s.issued| <= i < |End(s, steps).issued|
      ==> MakeID(node, End(s, steps).issued[i].1) != id
  }

  /** Ids up to the counter are never drawn again, in whatever interleaving of the goroutines. */
  lemma NewIDsExceedCounter(node: int, counter: int, id: int)
    requires id <= MakeID(node, counter)
    ensures NeverDraws(node, counter, id)
  {
    forall s, steps, i | Inv(s) && s.counter == counter && Runs(s, steps) && |s.issued| <= i < |End(s, steps).issued|
      ensures MakeID(node, End(s, steps).issued[i].1) != id
    {
      RunKeeps(s, steps);
    }
  }

  /**
   Opening a node's database: seeding and, if that used any counter, the raise of the process's counter against
   the interference `others`.  After a first boot the rows are those of the seed, and no id drawn from then on
   equals one of theirs; later boots change nothing.
   */
  method Boot(store: Store, data: SeedData, counter: Counter, others: seq<nat>)
    requires counter.value >= 0
    modifies store, counter
    ensures old(store.ingenieros) != map[] ==>
      store.Value() == old(store.Value()) && counter.value == old(counter.value)
    ensures old(store.ingenieros) == map[] ==> store.Value() == Replay(store.self, old(store.Value()), SeedOps(data))
    ensures old(store.ingenieros) == map[] ==> Stocked(store.self, data, old(store.Value()), store.Value())
    ensures old(store.ingenieros) == map[] ==>
      forall id :: Seeded(data, store.self, id) ==> NeverDraws(store.self, counter.value, id)
    ensures counter.value >= old(counter.value)
  {
    ghost var first := store.ingenieros == map[];
    var maxCounter := Seed(store, data);
    if maxCounter > 0 {
      SetMinRaises(counter.value, maxCounter, others);
      counter.SetMin(maxCounter, others);
    }
    forall id | first && Seeded(data, store.self, id)
      ensures NeverDraws(store.self, counter.value, id)
    {
      NewIDsExceedCounter(store.self, counter.value, id);
    }
  }
}
