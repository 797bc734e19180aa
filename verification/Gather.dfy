/**
 Scatter and gather (internal/service/ticket_service.go: ListAll, HandleQuery, HandleQueryResponse,
 splitQueryID).  A collector's latch must open when every reachable peer has answered, whatever the order
 of the answers and of the correction for peers that the query could not be sent to.
 */
module Gather {
  // ---- Routing an answer by "queryID|table" --------------------------------------------------------

  /** The position of the first bar, or the length of the text. */
  function FirstBar(raw: string): (i: nat)
    ensures i <= |raw|
    ensures forall k :: 0 <= k < i ==> raw[k] != '|'
    ensures i < |raw| ==> raw[i] == '|'
  {
    if raw == "" || raw[0] == '|' then 0 else 1 + FirstBar(raw[1..])
  }

  function Split(raw: string): (string, string) {
    var i := FirstBar(raw);
    if i < |raw| then (raw[..i], raw[i + 1..]) else ("", raw)
  }

  method SplitQueryID(raw: string) returns (queryID: string, table: string)
    ensures (queryID, table) == Split(raw)
    ensures '|' in raw ==> raw == queryID + "|" + table && '|' !in queryID
    ensures '|' !in raw ==> queryID == "" && table == raw
  {
    for i := 0 to |raw|
      invariant forall k :: 0 <= k < i ==> raw[k] != '|'
    {
      if raw[i] == '|' {
        return raw[..i], raw[i + 1..];
      }
    }
    return "", raw;
  }

  /** A query id is recovered from an answer exactly when it has no bar of its own. */
  lemma SplitUndoesJoin(id: string, table: string)
    ensures Split(id + "|" + table) == (id, table) <==> '|' !in id
  {
    var raw := id + "|" + table;
    var i := FirstBar(raw);
    assert raw[|id|] == '|';
    if '|' !in id {
      assert raw[i] == '|' && i == |id|;
      assert raw[..i] == id && raw[i + 1..] == table;
    } else {
      var k :| 0 <= k < |id| && id[k] == '|';
      assert raw[k] == '|' && i <= k;
      assert |Split(raw).0| == i;
    }
  }

  /** fmt.Sprintf("%d", n). */
  function Decimal(n: int): (r: string)
    ensures |r| > 0
    decreases n < 0, if n < 0 then -n else n
  {
    if n < 0 then "-" + Decimal(-n)
    else if n < 10 then [Digit(n)]
    else Decimal(n / 10) + [Digit(n % 10)]
  }

  function Digit(d: int): (c: char)
    requires 0 <= d < 10
    ensures '0' <= c <= '9'
  {
    '0' + d as char
  }

  function QueryID(table: string, node: int, nanos: int): string {
    table + "-" + Decimal(node) + "-" + Decimal(nanos)
  }

  lemma {:induction false} DecimalHasNoBar(n: int)
    ensures '|' !in Decimal(n)
    decreases n < 0, if n < 0 then -n else n
  {
    if n < 0 {
      DecimalHasNoBar(-n);
      assert '|' !in "-";
    } else if n >= 10 {
      DecimalHasNoBar(n / 10);
      assert '|' !in [Digit(n % 10)];
    } else {
      assert '|' !in [Digit(n)];
    }
  }

  /** The answer to a query for any table whose name has no bar finds its way back. */
  lemma AnswersComeBack(table: string, node: int, nanos: int)
    ensures Split(QueryID(table, node, nanos) + "|" + table) == (QueryID(table, node, nanos), table) <==> '|' !in table
  {
    DecimalHasNoBar(node);
    DecimalHasNoBar(nanos);
    SplitUndoesJoin(QueryID(table, node, nanos), table);
  }

  lemma {:induction false} DecimalHasNoDash(n: nat)
    ensures '-' !in Decimal(n)
    decreases n
  {
    if n >= 10 {
      DecimalHasNoDash(n / 10);
      assert '-' !in [Digit(n % 10)];
    } else {
      assert '-' !in [Digit(n)];
    }
  }

  lemma {:induction false} DecimalIsInjective(m: nat, n: nat)
    requires Decimal(m) == Decimal(n)
    ensures m == n
    decreases m
  {
    var a, b := Decimal(m), Decimal(n);
    assert a[|a| - 1] == Digit(m % 10) && b[|b| - 1] == Digit(n % 10);
    if m >= 10 && n >= 10 {
      assert Decimal(m / 10) == a[..|a| - 1] && Decimal(n / 10) == b[..|b| - 1];
      DecimalIsInjective(m / 10, n / 10);
    }
  }

  /** The last dash of `a + "-" + x` is the one in the middle if `x` has none. */
  lemma LastDash(a: string, x: string, i: int)
    requires '-' !in x && |a| < i <= |a| + |x|
    ensures (a + "-" + x)[i] != '-'
  {
    assert (a + "-" + x)[i] == x[i - |a| - 1];
  }

  lemma SplitAtLastDash(a: string, x: string, b: string, y: string)
    requires '-' !in x && '-' !in y && a + "-" + x == b + "-" + y
    ensures a == b && x == y
  {
    var s := a + "-" + x;
    assert s[|a|] == '-' && (b + "-" + y)[|b|] == '-';
    if |a| < |b| {
      LastDash(a, x, |b|);
    } else if |b| < |a| {
      LastDash(b, y, |a|);
    }
    assert a == s[..|a|] && b == s[..|b|] && x == s[|a| + 1..] && y == s[|b| + 1..];
  }

  /** Different queries have different ids, so that an answer finds the collector of its own query only. */
  lemma QueryIDsDiffer(table: string, node: nat, nanos: nat, table': string, node': nat, nanos': nat)
    requires QueryID(table, node, nanos) == QueryID(table', node', nanos')
    ensures table == table' && node == node' && nanos == nanos'
  {
    DecimalHasNoDash(nanos);
    DecimalHasNoDash(nanos');
    SplitAtLastDash(table + "-" + Decimal(node), Decimal(nanos), table' + "-" + Decimal(node'), Decimal(nanos'));
    DecimalHasNoDash(node);
    DecimalHasNoDash(node');
    SplitAtLastDash(table, Decimal(node), table', Decimal(node'));
    DecimalIsInjective(node, node');
    DecimalIsInjective(nanos, nanos');
  }

  // ---- The collectors of one node ------------------------------------------------------------------

  datatype Event = Answer | Correction(errors: nat)

  /** A collector, its answers only counted; `closings` is how often close(col.done) was executed. */
  datatype Latch = Latch(expected: int, results: nat, closings: nat)

  function On(l: Latch, ev: Event): Latch {
    var l' := match ev
      case Answer => l.(results := l.results + 1)
      case Correction(errors) => l.(expected := l.expected - errors);
    if l'.results >= l'.expected && l'.closings == 0 then l'.(closings := 1) else l'
  }

  class Collector<R> {
    var expected: int
    var results: seq<R>
    var closed: bool

    ghost function Value(): Latch
      reads this
    {
      Latch(expected, |results|, if closed then 1 else 0)
    }

    constructor (expected: int)
      ensures Value() == Latch(expected, 0, 0) && results == []
    {
      this.expected, results, closed := expected, [], false;
    }

    /** Closing a closed channel panics. */
    method Close()
      requires !closed
      modifies this`closed
      ensures closed
    {
      closed := true;
    }

    /** The check made after every change: open the latch if enough answers are in and it is not open yet. */
    method CheckDone()
      modifies this`closed
      ensures closed <==> old(closed) || |results| >= expected
    {
      if |results| >= expected && !closed {
        Close();
      }
    }
  }

  class Service<R> {
    var queryWait: map<string, Collector<R>>

    ghost predicate Valid()
      reads this
    {
      forall x, y :: x in queryWait && y in queryWait && x != y ==> queryWait[x] != queryWait[y]
    }

    constructor ()
      ensures Valid() && queryWait == map[]
    {
      queryWait := map[];
    }

    method Register(id: string, peers: nat) returns (col: Collector<R>)
      requires Valid() && forall x :: x in queryWait ==> allocated(queryWait[x])
      modifies this
      ensures Valid() && fresh(col) && queryWait == old(queryWait)[id := col]
      ensures col.Value() == Latch(peers, 0, 0) && col.results == []
    {
      col := new Collector(peers);
      queryWait := queryWait[id := col];
    }

    /** The correction for the peers that the query could not be sent to. */
    method Adjust(col: Collector<R>, errors: nat)
      modifies col
      ensures col.Value() == On(old(col.Value()), Correction(errors)) && col.results == old(col.results)
    {
      col.expected := col.expected - errors;
      col.CheckDone();
    }

    /** An answer reaches the collector whose id it carries and no other. */
    method HandleQueryResponse(table: string, answer: R)
      requires Valid()
      modifies queryWait.Values
      ensures forall x :: x in queryWait ==>
        var col := queryWait[x];
        if x == Split(table).0 then
          col.results == old(col.results) + [answer] && col.Value() == On(old(col.Value()), Answer)
        else
          col.results == old(col.results) && col.Value() == old(col.Value())
    {
      var id, _ := SplitQueryID(table);
      if id in queryWait {
        var col := queryWait[id];
        assert col in queryWait.Values;
        col.results := col.results + [answer];
        col.CheckDone();
      }
    }
  }

  // ---- Every interleaving of answers and correction --------------------------------------------------

  function After(peers: nat, evs: seq<Event>): Latch {
    if evs == [] then Latch(peers, 0, 0) else On(After(peers, evs[..|evs| - 1]), evs[|evs| - 1])
  }

  function Answers(evs: seq<Event>): nat {
    if evs == [] then 0 else Answers(evs[..|evs| - 1]) + (if evs[|evs| - 1].Answer? then 1 else 0)
  }

  function Errors(evs: seq<Event>): nat {
    if evs == [] then 0
    else Errors(evs[..|evs| - 1]) + (if evs[|evs| - 1].Correction? then evs[|evs| - 1].errors else 0)
  }

  lemma {:induction false} LatchCounts(peers: nat, evs: seq<Event>)
    ensures After(peers, evs).results == Answers(evs) && After(peers, evs).expected == peers - Errors(evs)
  {
    if evs != [] {
      LatchCounts(peers, evs[..|evs| - 1]);
    }
  }

  /** The latch is never closed twice, whatever arrives. */
  lemma {:induction false} ClosedAtMostOnce(peers: nat, evs: seq<Event>)
    ensures After(peers, evs).closings <= 1
  {
    if evs != [] {
      ClosedAtMostOnce(peers, evs[..|evs| - 1]);
    }
  }

  /** It is closed exactly if at the moment of some event the answers had reached the count expected then. */
  lemma {:induction false} ClosedWhenCountWasReached(peers: nat, evs: seq<Event>)
    ensures After(peers, evs).closings == 1 <==>
      exists k :: 0 < k <= |evs| && After(peers, evs[..k]).results >= After(peers, evs[..k]).expected
  {
    if evs != [] {
      var before := evs[..|evs| - 1];
      ClosedWhenCountWasReached(peers, before);
      ClosedAtMostOnce(peers, before);
      assert evs[..|evs|] == evs;
      assert forall k :: 0 < k <= |before| ==> before[..k] == evs[..k];
      if After(peers, evs).closings == 1 && After(peers, before).closings == 1 {
        var k :| 0 < k <= |before| && After(peers, before[..k]).results >= After(peers, before[..k]).expected;
        assert evs[..k] == before[..k];
      }
    }
  }

  /**
   Of `peers` peers, `errors` could not be reached; the others answer at most once each, and a correction
   is made exactly when there were errors.  The latch is open exactly when all reachable peers have
   answered and the correction, if any, has been made: never early and never missed.
   */
  lemma OpensExactlyWhenAllReachableAnswered(peers: nat, errors: nat, evs: seq<Event>)
    requires 0 < peers && errors <= peers
    requires Answers(evs) <= peers - errors && (Errors(evs) == 0 || Errors(evs) == errors)
    requires forall k :: 0 <= k < |evs| && evs[k].Correction? ==> evs[k].errors == errors > 0
    ensures After(peers, evs).closings == 1 <==> Answers(evs) == peers - errors && Errors(evs) == errors
  {
    LatchCounts(peers, evs);
    ClosedAtMostOnce(peers, evs);
    if Answers(evs) == peers - errors && Errors(evs) == errors {
      assert evs != [];
    } else {
      NotYet(peers, errors, evs);
    }
  }

  lemma {:induction false} NotYet(peers: nat, errors: nat, evs: seq<Event>)
    requires 0 < peers && errors <= peers
    requires Answers(evs) <= peers - errors && (Errors(evs) == 0 || Errors(evs) == errors)
    requires forall k :: 0 <= k < |evs| && evs[k].Correction? ==> evs[k].errors == errors > 0
    requires Answers(evs) < peers - errors || Errors(evs) != errors
    ensures After(peers, evs).closings == 0
  {
    if evs != [] {
      LatchCounts(peers, evs);
      NotYet(peers, errors, evs[..|evs| - 1]);
    }
  }
}
