/**
 Two choices of internal/service/ticket_service.go: the engineer of a new ticket and the engineer of a new
 device.  Redistribution.dfy has the third, the engineers that take over the tickets of a dead branch.
 */
module Assignment {
  import opened Options
  import opened Sequences
  import opened Tables
  import opened Shards
  import opened Ids

  // ---- A new ticket --------------------------------------------------------------------------------

  ghost predicate FirstAvailable(rows: seq<Ingeniero>, i: int) {
    0 <= i < |rows| && rows[i].disponible == 1 && forall j :: 0 <= j < i ==> rows[j].disponible != 1
  }

  /** The loop of raiseTicket: the first engineer of the list whose row says available. */
  method ChooseAvailable(rows: seq<Ingeniero>) returns (chosen: Option<Ingeniero>)
    ensures chosen.None? <==> forall i :: 0 <= i < |rows| ==> rows[i].disponible != 1
    ensures chosen.Some? ==> exists i :: FirstAvailable(rows, i) && rows[i] == chosen.value
  {
    for i := 0 to |rows|
      invariant forall j :: 0 <= j < i ==> rows[j].disponible != 1
    {
      if rows[i].disponible == 1 {
        assert FirstAvailable(rows, i);
        return Some(rows[i]);
      }
    }
    return None;
  }

  // ---- A new device --------------------------------------------------------------------------------

  /** The number of devices of an engineer; devices with engineer 0 belong to nobody. */
  function Load(devs: seq<Dispositivo>, eng: int): nat {
    if devs == [] then 0
    else
      var rest := Load(devs[..|devs| - 1], eng);
      if devs[|devs| - 1].ingeniero == eng && eng != 0 then rest + 1 else rest
  }

  /** That is, the number of positions with the engineer's id, and none for id 0. */
  lemma {:induction false} LoadCountsPositions(devs: seq<Dispositivo>, eng: int)
    ensures Load(devs, eng) == if eng == 0 then 0 else |set k | 0 <= k < |devs| && devs[k].ingeniero == eng|
  {
    if devs != [] {
      var n := |devs| - 1;
      LoadCountsPositions(devs[..n], eng);
      var before := set k | 0 <= k < n && devs[..n][k].ingeniero == eng;
      assert (set k | 0 <= k < |devs| && devs[k].ingeniero == eng) ==
        before + if devs[n].ingeniero == eng then {n} else {};
    }
  }

  /** The first loop of distributeDevice. */
  method CountDevices(devs: seq<Dispositivo>) returns (counts: map<int, nat>)
    ensures forall e :: Load(devs, e) == if e in counts then counts[e] else 0
  {
    counts := map[];
    for i := 0 to |devs|
      invariant forall e :: Load(devs[..i], e) == if e in counts then counts[e] else 0
    {
      assert devs[..i + 1][..i] == devs[..i];
      var e := devs[i].ingeniero;
      if e != 0 {
        counts := counts[e := (if e in counts then counts[e] else 0) + 1];
      }
    }
    assert devs[..|devs|] == devs;
  }

  /** `i` is the first position with the smallest load. */
  ghost predicate LeastAt(engs: seq<Ingeniero>, devs: seq<Dispositivo>, i: nat)
    requires i < |engs|
  {
    && (forall j :: 0 <= j < |engs| ==> Load(devs, engs[i].id) <= Load(devs, engs[j].id))
    && (forall j :: 0 <= j < i ==> Load(devs, engs[i].id) < Load(devs, engs[j].id))
  }

  /** The second loop of distributeDevice. */
  method LeastLoaded(engs: seq<Ingeniero>, devs: seq<Dispositivo>) returns (k: nat)
    requires engs != []
    ensures k < |engs| && LeastAt(engs, devs, k)
  {
    var counts := CountDevices(devs);
    k := 0;
    var minCount := -1;
    for i := 0 to |engs|
      invariant minCount < 0 <==> i == 0
      invariant k < |engs| && (i > 0 ==> k < i && minCount == Load(devs, engs[k].id))
      invariant forall j :: 0 <= j < i ==> minCount <= Load(devs, engs[j].id)
      invariant forall j :: 0 <= j < k ==> Load(devs, engs[k].id) < Load(devs, engs[j].id)
    {
      assert Load(devs, engs[i].id) == if engs[i].id in counts then counts[engs[i].id] else 0;
      var c := if engs[i].id in counts then counts[engs[i].id] else 0;
      if minCount < 0 || c < minCount {
        minCount := c;
        k := i;
      }
    }
  }

  /** The row proposed for a device that goes to engineer `e`. */
  function Proposed(e: Ingeniero, id: int, nombre: string, tipo: string): Dispositivo {
    Dispositivo(id, nombre, tipo, e.sucursal, e.id)
  }

  /** distributeDevice up to its proposal; no engineers is an error. */
  method DistributeDevice(counter: Counter, engs: seq<Ingeniero>, devs: seq<Dispositivo>, nombre: string, tipo: string)
    returns (proposal: Option<Op>, ghost k: nat)
    modifies counter
    ensures proposal.None? <==> engs == []
    ensures engs == [] ==> counter.value == old(counter.value)
    ensures engs != [] ==> k < |engs| && LeastAt(engs, devs, k) && counter.value == old(counter.value) + 1
    ensures engs != [] ==>
      proposal == Some(InsertDispositivo(Proposed(engs[k], MakeID(engs[k].sucursal, counter.value), nombre, tipo)))
    ensures engs != [] ==>
      var d := proposal.value.d;
      && d.nombre == nombre && d.tipo == tipo && d.sucursal == engs[k].sucursal && d.ingeniero == engs[k].id
      && d.id == engs[k].sucursal * 10_000_000_000 + old(counter.value) + 1
  {
    if |engs| == 0 {
      return None, 0;
    }
    var chosen := LeastLoaded(engs, devs);
    var id := counter.NewID(engs[chosen].sucursal);
    proposal := Some(InsertDispositivo(Dispositivo(id, nombre, tipo, engs[chosen].sucursal, engs[chosen].id)));
    k := chosen;
  }

  /** A device whose id is new is stored on its engineer's branch and nowhere else. */
  lemma StoredOnEngineersBranch(b: int, db: DB, e: Ingeniero, id: int, nombre: string, tipo: string)
    requires id !in db.dispositivos
    ensures var rows := Apply(b, db, InsertDispositivo(Proposed(e, id, nombre, tipo))).dispositivos;
      && (id in rows <==> b == e.sucursal)
      && (id in rows ==> rows[id] == Dispositivo(id, nombre, tipo, b, e.id))
      && rows - {id} == db.dispositivos
  {
    assert db.dispositivos - {id} == db.dispositivos;
  }

  // ---- Balance -----------------------------------------------------------------------------------

  ghost predicate SpreadAtMost(engs: seq<int>, devs: seq<Dispositivo>, k: nat) {
    forall e, f :: e in engs && f in engs ==> Load(devs, e) <= Load(devs, f) + k
  }

  /** One distribution: some least loaded engineer gets a device; the next ListAll may list it anywhere. */
  ghost predicate Distributes(engs: seq<int>, devs: seq<Dispositivo>, devs': seq<Dispositivo>) {
    exists d: Dispositivo :: d.ingeniero in engs && multiset(devs') == multiset(devs + [d])
      && forall e :: e in engs ==> Load(devs, d.ingeniero) <= Load(devs, e)
  }

  /** The ids of the engineers listed. */
  function IDs(engs: seq<Ingeniero>): (ids: seq<int>)
    ensures |ids| == |engs| && forall i :: 0 <= i < |engs| ==> ids[i] == engs[i].id
  {
    seq(|engs|, i requires 0 <= i < |engs| => engs[i].id)
  }

  lemma OneMoreRow(m: map<Key, Dispositivo>, all: set<int>, d: Dispositivo)
    requires Keyed(m, DispositivoKey()) && (d.sucursal, d.id) !in m && d.sucursal in all
    ensures multiset(RowsOf(m[(d.sucursal, d.id) := d], all)) == multiset(RowsOf(m, all)) + multiset{d}
  {
    var m' := m[(d.sucursal, d.id) := d];
    assert d !in RowsOf(m, all);
    forall r
      ensures r in RowsOf(m', all) <==> r in RowsOf(m, all) + {d}
    {
      if r in RowsOf(m, all) {
        var k :| k in m && k.0 in all && m[k] == r;
        assert k in m' && m'[k] == r;
      }
      if r == d {
        assert m'[(d.sucursal, d.id)] == d;
      }
    }
    assert RowsOf(m', all) == RowsOf(m, all) + {d};
  }

  lemma {:induction false} ExecuteAppend(c: Central, a: seq<Op>, b: seq<Op>)
    ensures ExecuteAll(c, a + b) == ExecuteAll(ExecuteAll(c, a), b)
    decreases |a|
  {
    if a == [] {
      assert a + b == b;
    } else {
      ExecuteAppend(Execute(c, a[0]), a[1..], b);
      assert (a + b)[1..] == a[1..] + b;
    }
  }

  /** Nothing but the insert of a device changes the devices. */
  lemma {:induction false} DevicesStay(c: Central, ops: seq<Op>)
    requires forall op :: op in ops ==> !op.InsertDispositivo?
    ensures ExecuteAll(c, ops).dispositivos == c.dispositivos
    decreases |ops|
  {
    if ops != [] {
      assert ops[0] in ops && forall op :: op in ops[1..] ==> op in ops;
      DevicesStay(Execute(c, ops[0]), ops[1..]);
    }
  }

  /** The commits `ops'` are `ops` and then that of `d` among others that insert no device; its id is new. */
  ghost predicate InsertsOnly(ops: seq<Op>, ops': seq<Op>, d: Dispositivo) {
    exists pre: seq<Op>, post: seq<Op> ::
      && ops' == ops + pre + [InsertDispositivo(d)] + post
      && (forall op :: op in pre + post ==> !op.InsertDispositivo?)
      && d.id !in Replay(d.sucursal, EMPTY, ops).dispositivos
  }

  lemma NewInCentral(c: Central, d: Dispositivo, db: DB)
    requires db == Shard(c, d.sucursal) && d.id !in db.dispositivos
    ensures (d.sucursal, d.id) !in c.dispositivos
  {
    assert (d.sucursal, d.id) in c.dispositivos ==> d.id in Branch(c.dispositivos, d.sucursal);
  }

  lemma OneMoreInCentral(ops: seq<Op>, ops': seq<Op>, d: Dispositivo)
    requires InsertsOnly(ops, ops', d)
    ensures var m := ExecuteAll(NOTHING, ops).dispositivos;
      && (d.sucursal, d.id) !in m && Keyed(m, DispositivoKey())
      && ExecuteAll(NOTHING, ops').dispositivos == m[(d.sucursal, d.id) := d]
  {
    var pre: seq<Op>, post: seq<Op> :|
      && ops' == ops + pre + [InsertDispositivo(d)] + post
      && (forall op :: op in pre + post ==> !op.InsertDispositivo?)
      && d.id !in Replay(d.sucursal, EMPTY, ops).dispositivos;
    var c := ExecuteAll(NOTHING, ops);
    var c1 := ExecuteAll(c, pre);
    var c2 := Execute(c1, InsertDispositivo(d));
    ShardsOfHistory([d.sucursal], ops);
    NewInCentral(c, d, Replay([d.sucursal][0], EMPTY, ops));
    DevicesStay(c, pre);
    DevicesStay(c2, post);
    ExecuteAppend(NOTHING, ops, pre);
    ExecuteAppend(NOTHING, ops + pre, [InsertDispositivo(d)]);
    assert [InsertDispositivo(d)][1..] == [];
    ExecuteAppend(NOTHING, ops + pre + [InsertDispositivo(d)], post);
  }

  /** `lists` are the tables of devices of `nodes` after the commits `ops`, each in any order. */
  ghost predicate Listed(nodes: seq<int>, ops: seq<Op>, lists: seq<seq<Dispositivo>>) {
    |lists| == |nodes| && forall i :: 0 <= i < |nodes| ==> Lists(lists[i], Replay(nodes[i], EMPTY, ops).dispositivos)
  }

  /** Committing a device with an id that is new on its branch adds its row to what ListAll gives. */
  lemma OneMoreListed(nodes: seq<int>, ops: seq<Op>, ops': seq<Op>, d: Dispositivo, before: seq<seq<Dispositivo>>,
                      after: seq<seq<Dispositivo>>)
    requires Distinct(nodes) && d.sucursal in nodes && InsertsOnly(ops, ops', d)
    requires Listed(nodes, ops, before) && Listed(nodes, ops', after)
    ensures multiset(Concat(after)) == multiset(Concat(before)) + multiset{d}
  {
    DevicesAreCentral(nodes, ops, before);
    DevicesAreCentral(nodes, ops', after);
    OneMoreInCentral(ops, ops', d);
    OneMoreRow(ExecuteAll(NOTHING, ops).dispositivos, NodeSet(nodes), d);
  }

  /** `engs` lists the engineers `ids`, in any order and with whatever else their rows say. */
  ghost predicate ListsEngineers(engs: seq<Ingeniero>, ids: seq<int>) {
    multiset(IDs(engs)) == multiset(ids)
  }

  lemma LeastOfAll(engs: seq<Ingeniero>, ids: seq<int>, devs: seq<Dispositivo>, k: nat)
    requires ListsEngineers(engs, ids) && k < |engs| && LeastAt(engs, devs, k)
    ensures engs[k].id in ids && forall e :: e in ids ==> Load(devs, engs[k].id) <= Load(devs, e)
  {
    assert IDs(engs)[k] == engs[k].id;
    SameMembers(IDs(engs), ids);
    SameMembers(ids, IDs(engs));
  }

  /**
   Between the ListAll that DistributeDevice counts and the next one, with its proposal committed meanwhile and no
   other device, the devices listed change as Distributes says.
   */
  lemma CommittedProposalDistributes(nodes: seq<int>, ids: seq<int>, engs: seq<Ingeniero>, k: nat, d: Dispositivo,
                                     ops: seq<Op>, ops': seq<Op>, before: seq<seq<Dispositivo>>,
                                     after: seq<seq<Dispositivo>>)
    requires Distinct(nodes) && ListsEngineers(engs, ids) && k < |engs| && LeastAt(engs, Concat(before), k)
    requires d == Proposed(engs[k], d.id, d.nombre, d.tipo) && engs[k].sucursal in nodes
    requires InsertsOnly(ops, ops', d) && Listed(nodes, ops, before) && Listed(nodes, ops', after)
    ensures Distributes(ids, Concat(before), Concat(after))
  {
    OneMoreListed(nodes, ops, ops', d, before, after);
    LeastOfAll(engs, ids, Concat(before), k);
    assert multiset(Concat(after)) == multiset(Concat(before) + [d]);
  }

  lemma {:induction false} LoadSplit(a: seq<Dispositivo>, b: seq<Dispositivo>, eng: int)
    ensures Load(a + b, eng) == Load(a, eng) + Load(b, eng)
  {
    if b == [] {
      assert a + b == a;
    } else {
      LoadSplit(a, b[..|b| - 1], eng);
      assert (a + b)[..|a + b| - 1] == a + b[..|b| - 1];
    }
  }

  /** The order in which the nodes answered does not matter. */
  lemma {:induction false} LoadOfPermutation(a: seq<Dispositivo>, b: seq<Dispositivo>, eng: int)
    requires multiset(a) == multiset(b)
    ensures Load(a, eng) == Load(b, eng)
    decreases |a|
  {
    if a == [] {
      assert |multiset(b)| == 0;
    } else {
      var before, after := FindHead(a, b);
      LoadOfPermutation(a[1..], before + after, eng);
      assert a == [a[0]] + a[1..];
      LoadSplit([a[0]], a[1..], eng);
      LoadSplit(before + [a[0]], after, eng);
      LoadSplit(before, [a[0]], eng);
      LoadSplit(before, after, eng);
    }
  }

  lemma OneMoreDevice(devs: seq<Dispositivo>, devs': seq<Dispositivo>, d: Dispositivo, eng: int)
    requires multiset(devs') == multiset(devs + [d])
    ensures Load(devs', eng) == Load(devs, eng) + if d.ingeniero == eng && eng != 0 then 1 else 0
  {
    LoadOfPermutation(devs', devs + [d], eng);
    assert (devs + [d])[..|devs|] == devs;
  }

  /** A distribution never widens a spread of at least one. */
  lemma DistributionKeepsSpread(engs: seq<int>, devs: seq<Dispositivo>, devs': seq<Dispositivo>, k: nat)
    requires Distributes(engs, devs, devs') && SpreadAtMost(engs, devs, k) && k >= 1
    ensures SpreadAtMost(engs, devs', k)
  {
    var d: Dispositivo :| d.ingeniero in engs && multiset(devs') == multiset(devs + [d])
      && forall e :: e in engs ==> Load(devs, d.ingeniero) <= Load(devs, e);
    forall e, f | e in engs && f in engs
      ensures Load(devs', e) <= Load(devs', f) + k
    {
      OneMoreDevice(devs, devs', d, e);
      OneMoreDevice(devs, devs', d, f);
    }
  }

  ghost predicate StepAt(engs: seq<int>, run: seq<seq<Dispositivo>>, i: nat)
    requires i + 1 < |run|
  {
    Distributes(engs, run[i], run[i + 1])
  }

  /** Serial distributions over fixed engineers, each fully answered. */
  ghost predicate Serial(engs: seq<int>, run: seq<seq<Dispositivo>>) {
    run != [] && Distinct(engs) && 0 !in engs && forall i :: 0 <= i < |run| - 1 ==> StepAt(engs, run, i)
  }

  lemma {:induction false} SpreadStays(engs: seq<int>, run: seq<seq<Dispositivo>>, m: nat, k: nat)
    requires m < |run| && SpreadAtMost(engs, run[0], k) && k >= 1
    requires forall i :: 0 <= i < m ==> StepAt(engs, run, i)
    ensures SpreadAtMost(engs, run[m], k)
  {
    if m > 0 {
      SpreadStays(engs, run, m - 1, k);
      assert StepAt(engs, run, m - 1);
      DistributionKeepsSpread(engs, run[m - 1], run[m], k);
    }
  }

  /** From any start the spread never exceeds the larger of one and what it was. */
  lemma SpreadStaysBounded(engs: seq<int>, run: seq<seq<Dispositivo>>, m: nat, k: nat)
    requires Serial(engs, run) && m < |run| && SpreadAtMost(engs, run[0], k)
    ensures SpreadAtMost(engs, run[m], if k < 1 then 1 else k)
  {
    SpreadStays(engs, run, m, if k < 1 then 1 else k);
  }

  function TotalLoad(engs: seq<int>, devs: seq<Dispositivo>): nat {
    if engs == [] then 0 else TotalLoad(engs[..|engs| - 1], devs) + Load(devs, engs[|engs| - 1])
  }

  lemma {:induction false} TotalGrows(engs: seq<int>, devs: seq<Dispositivo>, devs': seq<Dispositivo>, d: Dispositivo)
    requires Distinct(engs) && 0 !in engs && multiset(devs') == multiset(devs + [d])
    ensures TotalLoad(engs, devs') == TotalLoad(engs, devs) + if d.ingeniero in engs then 1 else 0
  {
    if engs != [] {
      var last := engs[|engs| - 1];
      assert engs == engs[..|engs| - 1] + [last];
      TotalGrows(engs[..|engs| - 1], devs, devs', d);
      OneMoreDevice(devs, devs', d, last);
    }
  }

  lemma DistributionAddsOne(engs: seq<int>, devs: seq<Dispositivo>, devs': seq<Dispositivo>)
    requires Distinct(engs) && 0 !in engs && Distributes(engs, devs, devs')
    ensures TotalLoad(engs, devs') == TotalLoad(engs, devs) + 1
  {
    var d: Dispositivo :| d.ingeniero in engs && multiset(devs') == multiset(devs + [d])
      && forall e :: e in engs ==> Load(devs, d.ingeniero) <= Load(devs, e);
    TotalGrows(engs, devs, devs', d);
  }

  lemma {:induction false} TotalAfter(engs: seq<int>, run: seq<seq<Dispositivo>>, m: nat)
    requires Serial(engs, run) && run[0] == [] && m < |run|
    ensures TotalLoad(engs, run[m]) == m
  {
    if m == 0 {
      TotalOfNothing(engs);
    } else {
      TotalAfter(engs, run, m - 1);
      assert StepAt(engs, run, m - 1);
      DistributionAddsOne(engs, run[m - 1], run[m]);
    }
  }

  lemma {:induction false} TotalOfNothing(engs: seq<int>)
    ensures TotalLoad(engs, []) == 0
  {
    if engs != [] {
      TotalOfNothing(engs[..|engs| - 1]);
    }
  }

  /** Bounds on every load bound the total; strictly if some load is off the bound. */
  lemma {:induction false} TotalBounds(engs: seq<int>, devs: seq<Dispositivo>, lo: nat, e: int)
    requires forall f :: f in engs ==> lo <= Load(devs, f) <= lo + 1
    ensures |engs| * lo <= TotalLoad(engs, devs) <= |engs| * lo + |engs|
    ensures e in engs && Load(devs, e) == lo ==> TotalLoad(engs, devs) < |engs| * lo + |engs|
    ensures e in engs && Load(devs, e) == lo + 1 ==> |engs| * lo < TotalLoad(engs, devs)
  {
    if engs != [] {
      var n := |engs| - 1;
      assert engs == engs[..n] + [engs[n]];
      TotalBounds(engs[..n], devs, lo, e);
      assert |engs| * lo == n * lo + lo;
    }
  }

  lemma Multiple(n: int, d: int)
    requires n > 0
    ensures d >= 1 ==> n * d >= n
    ensures d <= -1 ==> n * d <= -n
  {
    if d >= 1 {
      assert n * d == n * (d - 1) + n;
    } else if d <= -1 {
      assert n * d == n * (d + 1) - n;
    }
  }

  lemma Quotient(n: int, q: int, m: int)
    requires n > 0 && n * q <= m < n * q + n
    ensures m / n == q && m % n == m - n * q
  {
    var d := m / n - q;
    assert m == n * (m / n) + m % n;
    assert n * d == n * (m / n) - n * q;
    Multiple(n, d);
  }

  lemma {:induction false} SmallestLoad(engs: seq<int>, devs: seq<Dispositivo>) returns (e: int)
    requires engs != []
    ensures e in engs && forall f :: f in engs ==> Load(devs, e) <= Load(devs, f)
  {
    var n := |engs| - 1;
    assert engs == engs[..n] + [engs[n]];
    if n == 0 {
      e := engs[0];
    } else {
      e := SmallestLoad(engs[..n], devs);
      if Load(devs, engs[n]) < Load(devs, e) {
        e := engs[n];
      }
    }
  }

  /** With k engineers and no devices at the start, m devices leave each with floor(m/k) or ceil(m/k). */
  lemma DevicesAreBalanced(engs: seq<int>, run: seq<seq<Dispositivo>>, m: nat, e: int)
    requires Serial(engs, run) && run[0] == [] && m < |run| && e in engs
    ensures Load(run[m], e) == m / |engs| || (m % |engs| != 0 && Load(run[m], e) == m / |engs| + 1)
  {
    SpreadStaysBounded(engs, run, m, 0);
    TotalAfter(engs, run, m);
    var least := SmallestLoad(engs, run[m]);
    var lo := Load(run[m], least);
    TotalBounds(engs, run[m], lo, least);
    TotalBounds(engs, run[m], lo, e);
    Quotient(|engs|, lo, m);
  }

  /** What DistributeDevice proposes for the engineers and devices listed is committed, and no other device. */
  ghost predicate CommitsProposal(nodes: seq<int>, engs: seq<Ingeniero>, ops: seq<Op>, lists: seq<seq<Dispositivo>>,
                                  ops': seq<Op>) {
    exists k: nat, d: Dispositivo ::
      && k < |engs| && LeastAt(engs, Concat(lists), k) && engs[k].sucursal in nodes
      && d == Proposed(engs[k], d.id, d.nombre, d.tipo)
      && InsertsOnly(ops, ops', d)
  }

  lemma ProposalDistributes(nodes: seq<int>, ids: seq<int>, engs: seq<Ingeniero>, ops: seq<Op>,
                            lists: seq<seq<Dispositivo>>, ops': seq<Op>, lists': seq<seq<Dispositivo>>)
    requires Distinct(nodes) && Listed(nodes, ops, lists) && Listed(nodes, ops', lists')
    requires ListsEngineers(engs, ids) && CommitsProposal(nodes, engs, ops, lists, ops')
    ensures Distributes(ids, Concat(lists), Concat(lists'))
  {
    var k: nat, d: Dispositivo :|
      && k < |engs| && LeastAt(engs, Concat(lists), k) && engs[k].sucursal in nodes
      && d == Proposed(engs[k], d.id, d.nombre, d.tipo)
      && InsertsOnly(ops, ops', d);
    CommittedProposalDistributes(nodes, ids, engs, k, d, ops, ops', lists, lists');
  }

  /** What one distribution sees: the engineers listed, the commits so far, and the devices listed at the nodes. */
  datatype View = View(engs: seq<Ingeniero>, commits: seq<Op>, lists: seq<seq<Dispositivo>>)

  ghost predicate LeadsTo(nodes: seq<int>, ids: seq<int>, v: View, v': View) {
    && Listed(nodes, v.commits, v.lists) && Listed(nodes, v'.commits, v'.lists)
    && ListsEngineers(v.engs, ids) && CommitsProposal(nodes, v.engs, v.commits, v.lists, v'.commits)
  }

  lemma ViewDistributes(nodes: seq<int>, ids: seq<int>, v: View, v': View)
    requires Distinct(nodes) && LeadsTo(nodes, ids, v, v')
    ensures Distributes(ids, Concat(v.lists), Concat(v'.lists))
  {
    ProposalDistributes(nodes, ids, v.engs, v.commits, v.lists, v'.commits, v'.lists);
  }

  ghost predicate CommitsAt(nodes: seq<int>, ids: seq<int>, views: seq<View>, i: nat)
    requires i + 1 < |views|
  {
    LeadsTo(nodes, ids, views[i], views[i + 1])
  }

  /**
   One distribution after the other, over the engineers `ids`.  Each listing may come in its own order, the rows of
   the engineers may change, and other commits may come in between as long as they insert no device.
   */
  ghost predicate History(nodes: seq<int>, ids: seq<int>, views: seq<View>) {
    && Distinct(nodes) && Distinct(ids) && 0 !in ids && views != []
    && forall i :: 0 <= i < |views| - 1 ==> CommitsAt(nodes, ids, views, i)
  }

  /** The devices that each distribution saw. */
  function Listings(views: seq<View>): (run: seq<seq<Dispositivo>>)
    ensures |run| == |views| && forall i :: 0 <= i < |run| ==> run[i] == Concat(views[i].lists)
  {
    seq(|views|, i requires 0 <= i < |views| => Concat(views[i].lists))
  }

  lemma ListingsStep(nodes: seq<int>, ids: seq<int>, views: seq<View>, i: nat)
    requires Distinct(nodes) && i + 1 < |views| && CommitsAt(nodes, ids, views, i)
    ensures StepAt(ids, Listings(views), i)
  {
    ViewDistributes(nodes, ids, views[i], views[i + 1]);
  }

  lemma HistoryIsSerial(nodes: seq<int>, ids: seq<int>, views: seq<View>)
    requires History(nodes, ids, views)
    ensures Serial(ids, Listings(views))
  {
    forall i | 0 <= i < |views| - 1
      ensures StepAt(ids, Listings(views), i)
    {
      assert CommitsAt(nodes, ids, views, i);
      ListingsStep(nodes, ids, views, i);
    }
  }

  /** The spread and the balance, from the choice of the engineer over the commits at every node to the next listing. */
  lemma CommittedSpreadStaysBounded(nodes: seq<int>, ids: seq<int>, views: seq<View>, m: nat, k: nat)
    requires History(nodes, ids, views) && m < |views| && SpreadAtMost(ids, Concat(views[0].lists), k)
    ensures SpreadAtMost(ids, Concat(views[m].lists), if k < 1 then 1 else k)
  {
    HistoryIsSerial(nodes, ids, views);
    SpreadStaysBounded(ids, Listings(views), m, k);
  }

  lemma CommittedDevicesAreBalanced(nodes: seq<int>, ids: seq<int>, views: seq<View>, m: nat, e: int)
    requires History(nodes, ids, views) && Concat(views[0].lists) == [] && m < |views| && e in ids
    ensures var n := Load(Concat(views[m].lists), e);
      n == m / |ids| || (m % |ids| != 0 && n == m / |ids| + 1)
  {
    HistoryIsSerial(nodes, ids, views);
    DevicesAreBalanced(ids, Listings(views), m, e);
  }
}
