/**
 The election cascade terminates: an ELECTION sent to rank j weighs (n + 3) * 2^j, enough to pay for the
 answer, for the election it starts at rank j and for all that this one sends in turn.
 */
module ElectionTermination {
  import opened Options
  import opened NodeState
  import opened ElectionEngine
  import opened Election

  function Pow2(i: int): nat {
    if i <= 0 then 1 else 2 * Pow2(i - 1)
  }

  /** The weight of an ELECTION sent to rank j. */
  function Weight(n: nat, j: int): (w: nat)
    ensures w >= n + 3
  {
    if j <= 0 then n + 3 else 2 * Weight(n, j - 1)
  }

  lemma {:induction false} WeightIsPower(n: nat, j: int)
    ensures Weight(n, j) == (n + 3) * Pow2(j)
  {
    if j > 0 {
      WeightIsPower(n, j - 1);
    }
  }

  function Sum<T>(s: seq<T>, weight: T -> nat): nat {
    if s == [] then 0 else Sum(s[..|s| - 1], weight) + weight(s[|s| - 1])
  }

  function PacketWeight(c: Config): Packet -> nat {
    (p: Packet) => if p.msg.Election? then Weight(c.n, p.to) else 1
  }

  /** A spawned election at rank i; the ELECTION that spawns it weighs two more, for its delivery and the OK. */
  function StartWeight(c: Config): int -> nat {
    (i: int) => Weight(c.n, i) - 2
  }

  /** An armed timer of a live node pays for its expiry and for n - 1 announcements. */
  function TimerWeight(n: nat, e: Elector, alive: bool): nat { if alive && e.timer.Some? then n else 0 }

  function Timers(n: nat, nodes: seq<Elector>, live: set<int>): nat {
    if nodes == [] then 0
    else Timers(n, nodes[..|nodes| - 1], live) + TimerWeight(n, nodes[|nodes| - 1], |nodes| - 1 in live)
  }

  function Measure(c: Config, s: State): nat {
    Sum(s.net, PacketWeight(c)) + Sum(s.starts, StartWeight(c)) + Timers(c.n, s.nodes, s.live)
  }

  // ---- Sums --------------------------------------------------------------------------------------

  lemma {:induction false} SumAppend<T>(a: seq<T>, b: seq<T>, weight: T -> nat)
    ensures Sum(a + b, weight) == Sum(a, weight) + Sum(b, weight)
  {
    if b == [] {
      assert a + b == a;
    } else {
      SumAppend(a, b[..|b| - 1], weight);
      assert (a + b)[..|a + b| - 1] == a + b[..|b| - 1];
    }
  }

  lemma {:induction false} SumWithout<T>(s: seq<T>, k: nat, weight: T -> nat)
    requires k < |s|
    ensures Sum(Without(s, k), weight) + weight(s[k]) == Sum(s, weight)
  {
    var m := |s| - 1;
    if k == m {
      assert Without(s, k) == s[..m];
    } else {
      SumWithout(s[..m], k, weight);
      assert Without(s, k)[..m - 1] == Without(s[..m], k);
    }
  }

  lemma SumOne<T>(x: T, weight: T -> nat)
    ensures Sum([x], weight) == weight(x)
  {
    assert [x][..0] == [];
  }

  lemma {:induction false} TimersUpdate(n: nat, nodes: seq<Elector>, live: set<int>, i: nat, e: Elector)
    requires i < |nodes|
    ensures Timers(n, nodes[i := e], live) + TimerWeight(n, nodes[i], i in live)
         == Timers(n, nodes, live) + TimerWeight(n, e, i in live)
  {
    var m := |nodes| - 1;
    if i < m {
      TimersUpdate(n, nodes[..m], live, i, e);
      assert nodes[i := e][..m] == nodes[..m][i := e];
    } else {
      assert nodes[i := e][..m] == nodes[..m];
    }
  }

  lemma {:induction false} FewerTimers(n: nat, nodes: seq<Elector>, live: set<int>, fewer: set<int>)
    requires fewer <= live
    ensures Timers(n, nodes, fewer) <= Timers(n, nodes, live)
  {
    if nodes != [] {
      FewerTimers(n, nodes[..|nodes| - 1], live, fewer);
    }
  }

  // ---- What one node sends -------------------------------------------------------------------------

  lemma {:induction false} PeerCount(m: nat, i: int)
    ensures |PeersOf(Ranks(m), i)| == if 0 <= i < m then m - 1 else m
  {
    if m > 0 {
      PeerCount(m - 1, i);
      assert Ranks(m)[..m - 1] == Ranks(m - 1);
    }
  }

  function Weights(n: nat, ranks: seq<int>): nat {
    if ranks == [] then 0 else Weights(n, ranks[..|ranks| - 1]) + Weight(n, ranks[|ranks| - 1])
  }

  /** The nodes among the first m ranks that an election at rank i is sent to. */
  function LowerAmong(m: nat, i: int, view: set<int>): seq<int> {
    LowerOf(AliveOf(PeersOf(Ranks(m), i), view), i)
  }

  lemma OneMoreRank(m: nat, i: int, view: set<int>)
    ensures LowerAmong(m + 1, i, view) == LowerAmong(m, i, view) + if m < i && m in view then [m] else []
  {
    assert Ranks(m + 1)[..m] == Ranks(m);
    var peers := PeersOf(Ranks(m), i);
    var alive := AliveOf(peers, view);
    assert (peers + [m])[..|peers|] == peers;
    assert (alive + [m])[..|alive|] == alive;
  }

  lemma OneMoreWeight(n: nat, ranks: seq<int>, m: int)
    ensures Weights(n, ranks + [m]) == Weights(n, ranks) + Weight(n, m) && ranks + [] == ranks
  {
    assert (ranks + [m])[..|ranks|] == ranks;
  }

  lemma {:induction false} WeightsUpTo(n: nat, m: nat, i: nat, view: set<int>)
    requires m <= i
    ensures Weights(n, LowerAmong(m, i, view)) + n + 3 <= Weight(n, m)
  {
    if m > 0 {
      var lower := LowerAmong(m - 1, i, view);
      WeightsUpTo(n, m - 1, i, view);
      OneMoreRank(m - 1, i, view);
      OneMoreWeight(n, lower, m - 1);
      assert Weights(n, LowerAmong(m, i, view)) <= Weights(n, lower) + Weight(n, m - 1);
    }
  }

  lemma {:induction false} NoneAbove(m: nat, i: nat, view: set<int>)
    requires i <= m
    ensures LowerAmong(m, i, view) == LowerAmong(i, i, view)
  {
    if i < m {
      NoneAbove(m - 1, i, view);
      OneMoreRank(m - 1, i, view);
    }
  }

  /** 2^0 + ... + 2^(i-1) < 2^i, also when some of the ranks are believed dead. */
  lemma LowerWeights(n: nat, m: nat, i: nat, view: set<int>)
    ensures Weights(n, LowerAmong(m, i, view)) <= Weight(n, if m < i then m else i) - (n + 3)
  {
    if m < i {
      WeightsUpTo(n, m, i, view);
    } else {
      NoneAbove(m, i, view);
      WeightsUpTo(n, i, i, view);
    }
  }

  lemma {:induction false} ElectionsWeigh(c: Config, s: State, i: int, lower: seq<int>)
    ensures Sum(Packets(c, s, i, SendAll(lower, Election(i))), PacketWeight(c)) == Weights(c.n, lower)
  {
    if lower != [] {
      var m := |lower| - 1;
      ElectionsWeigh(c, s, i, lower[..m]);
      assert Packets(c, s, i, SendAll(lower, Election(i)))[..m] == Packets(c, s, i, SendAll(lower[..m], Election(i)));
    }
  }

  lemma {:induction false} AnnouncementsWeigh(c: Config, s: State, i: int, to: seq<int>, m: int)
    ensures Sum(Packets(c, s, i, SendAll(to, Coordinator(m))), PacketWeight(c)) == |to|
  {
    if to != [] {
      var k := |to| - 1;
      AnnouncementsWeigh(c, s, i, to[..k], m);
      assert Packets(c, s, i, SendAll(to, Coordinator(m)))[..k] == Packets(c, s, i, SendAll(to[..k], Coordinator(m)));
    }
  }

  /** What acting does to the measure. */
  lemma ActMeasure(c: Config, s: State, i: int, r: (Elector, seq<Send>))
    requires 0 <= i < |s.nodes|
    ensures Measure(c, Act(c, s, i, r)) + TimerWeight(c.n, s.nodes[i], i in s.live)
         == Measure(c, s) + TimerWeight(c.n, r.0, i in s.live) + Sum(Packets(c, s, i, r.1), PacketWeight(c))
  {
    SumAppend(s.net, Packets(c, s, i, r.1), PacketWeight(c));
    TimersUpdate(c.n, s.nodes, s.live, i, r.0);
  }

  lemma VictoryMeasure(c: Config, s: State, i: int)
    requires 0 <= i < c.n == |s.nodes|
    ensures Measure(c, Act(c, s, i, Victory(i, Peers(c, i)))) + TimerWeight(c.n, s.nodes[i], i in s.live)
         == Measure(c, s) + c.n - 1
  {
    ActMeasure(c, s, i, Victory(i, Peers(c, i)));
    PeerCount(c.n, i);
    AnnouncementsWeigh(c, s, i, Peers(c, i), i);
  }

  lemma AskMeasure(c: Config, s: State, i: int, view: set<int>, e: Elector)
    requires 0 <= i < c.n == |s.nodes|
    ensures Measure(c, Act(c, s, i, (e, SendAll(Lower(c, i, view), Election(i))))) + 3 <= Measure(c, s) + Weight(c.n, i)
  {
    ActMeasure(c, s, i, (e, SendAll(Lower(c, i, view), Election(i))));
    LowerWeights(c.n, c.n, i, view);
    ElectionsWeigh(c, s, i, Lower(c, i, view));
  }

  /** An election at rank i adds less than its weight. */
  lemma ElectionMeasure(c: Config, s: State, i: int, view: set<int>)
    requires WellFormed(c, s) && 0 <= i < c.n
    ensures Measure(c, RunElection(c, s, i, view)) < Measure(c, s) + StartWeight(c)(i)
  {
    var lower := Lower(c, i, view);
    if s.nodes[i].running {
      ActMeasure(c, s, i, (s.nodes[i], []));
    } else if lower == [] {
      VictoryMeasure(c, s, i);
    } else {
      AskMeasure(c, s, i, view, Start(s.nodes[i], i, Peers(c, i), lower, s.now + c.okTimeout).0);
    }
  }

  /** Every step that handles something lowers the measure. */
  predicate Works(step: Step) { step.RunStart? || step.Deliver? || step.Drop? || step.Fire? }

  /** What a spontaneous step may add. */
  function Fuel(c: Config, step: Step): nat {
    match step
    case Suspect(i, _) => StartWeight(c)(i)
    case Claim => c.n
    case _ => 0
  }

  lemma StepMeasure(c: Config, s: State, step: Step)
    requires WellFormed(c, s) && Enabled(c, s, step)
    ensures Measure(c, Do(c, s, step)) + (if Works(step) then 1 else 0) <= Measure(c, s) + Fuel(c, step)
  {
    match step
    case Suspect(i, view) => ElectionMeasure(c, s, i, view);
    case Claim =>
      ActMeasure(c, s, 0, (OnCoordinator(s.nodes[0], 0), SendAll(Peers(c, 0), Coordinator(0))));
      PeerCount(c.n, 0);
      AnnouncementsWeigh(c, s, 0, Peers(c, 0), 0);
    case RunStart(k, view) => RunStartMeasure(c, s, k, view);
    case Deliver(k) => DeliverMeasure(c, s, k);
    case Drop(k) => SumWithout(s.net, k, PacketWeight(c));
    case Fire(i) => FireMeasure(c, s, i);
    case Tick(_) =>
    case Crash(i) => FewerTimers(c.n, s.nodes, s.live, s.live - {i});
  }

  lemma RunStartMeasure(c: Config, s: State, k: nat, view: set<int>)
    requires WellFormed(c, s) && Enabled(c, s, RunStart(k, view))
    ensures Measure(c, Do(c, s, RunStart(k, view))) < Measure(c, s)
  {
    var i := s.starts[k];
    SumWithout(s.starts, k, StartWeight(c));
    if i in s.live {
      ElectionMeasure(c, s.(starts := Without(s.starts, k)), i, view);
    }
  }

  lemma FireMeasure(c: Config, s: State, i: int)
    requires WellFormed(c, s) && Enabled(c, s, Fire(i))
    ensures Measure(c, Do(c, s, Fire(i))) < Measure(c, s)
  {
    if s.nodes[i].running {
      VictoryMeasure(c, s, i);
    } else {
      ActMeasure(c, s, i, OnTimer(s.nodes[i], i, Peers(c, i)));
    }
  }

  lemma DeliverMeasure(c: Config, s: State, k: nat)
    requires WellFormed(c, s) && Enabled(c, s, Deliver(k))
    ensures Measure(c, Do(c, s, Deliver(k))) < Measure(c, s)
  {
    var p, s1 := s.net[k], s.(net := Without(s.net, k));
    SumWithout(s.net, k, PacketWeight(c));
    match p.msg
    case OK => ActMeasure(c, s1, p.to, (OnOK(s1.nodes[p.to]), []));
    case Coordinator(m) => ActMeasure(c, s1, p.to, (OnCoordinator(s1.nodes[p.to], m), []));
    case Election(candidate) =>
      var (sends, start) := OnElection(p.to, candidate, p.from);
      ActMeasure(c, s1, p.to, (s1.nodes[p.to], sends));
      if start {
        SumAppend(s.starts, [p.to], StartWeight(c));
        SumOne(p.to, StartWeight(c));
        SumOne(Packets(c, s1, p.to, sends)[0], PacketWeight(c));
        assert Packets(c, s1, p.to, sends) == [Packets(c, s1, p.to, sends)[0]];
      }
  }

  // ---- Whole runs --------------------------------------------------------------------------------

  /** `steps` can be taken one after the other from `s`. */
  ghost predicate Runs(c: Config, s: State, steps: seq<Step>)
    decreases |steps|
  {
    steps != [] ==> WellFormed(c, s) && Enabled(c, s, steps[0]) && Runs(c, Do(c, s, steps[0]), steps[1..])
  }

  ghost function End(c: Config, s: State, steps: seq<Step>): State
    requires Runs(c, s, steps)
    decreases |steps|
  {
    if steps == [] then s else End(c, Do(c, s, steps[0]), steps[1..])
  }

  function Work(steps: seq<Step>): nat {
    if steps == [] then 0 else (if Works(steps[0]) then 1 else 0) + Work(steps[1..])
  }

  function TotalFuel(c: Config, steps: seq<Step>): nat {
    if steps == [] then 0 else Fuel(c, steps[0]) + TotalFuel(c, steps[1..])
  }

  /** In every run the work done and still owed is at most what was owed and what spontaneous steps added. */
  lemma {:induction false} WorkIsPaidFor(c: Config, s: State, steps: seq<Step>)
    requires Runs(c, s, steps)
    ensures Work(steps) + Measure(c, End(c, s, steps)) <= Measure(c, s) + TotalFuel(c, steps)
    decreases |steps|
  {
    if steps != [] {
      StepMeasure(c, s, steps[0]);
      WorkIsPaidFor(c, Do(c, s, steps[0]), steps[1..]);
    }
  }

  /** Nothing is on its way and no election runs at a live node. */
  ghost predicate Quiet(s: State) {
    s.net == [] && s.starts == [] && forall i :: 0 <= i < |s.nodes| && i in s.live ==> s.nodes[i].timer.None?
  }

  predicate Spontaneous(step: Step) { step.Suspect? || step.Claim? }

  lemma {:induction false} QuietOwesNothing(n: nat, nodes: seq<Elector>, live: set<int>)
    requires forall i :: 0 <= i < |nodes| && i in live ==> nodes[i].timer.None?
    ensures Timers(n, nodes, live) == 0
  {
    if nodes != [] {
      QuietOwesNothing(n, nodes[..|nodes| - 1], live);
    }
  }

  lemma {:induction false} NoFuel(c: Config, steps: seq<Step>)
    requires forall k :: 0 <= k < |steps| ==> !Spontaneous(steps[k])
    ensures TotalFuel(c, steps) == 0
  {
    if steps != [] {
      NoFuel(c, steps[1..]);
    }
  }

  /** A cluster that is not quiet can go on: there is something to handle now, or when the next timer expires. */
  lemma NeverStuck(c: Config, s: State)
    requires Inv(c, s) && !Quiet(s)
    ensures exists step :: Works(step) && (Enabled(c, s, step) || WaitsFor(c, s, step))
  {
    if s.net != [] {
      var step := if s.net[0].to in s.live then Deliver(0) else Drop(0);
      assert Works(step) && Enabled(c, s, step);
    } else if s.starts != [] {
      assert Works(RunStart(0, s.live)) && Enabled(c, s, RunStart(0, s.live));
    } else {
      var i :| 0 <= i < |s.nodes| && i in s.live && s.nodes[i].timer.Some?;
      var expiry := s.nodes[i].timer.value;
      var wait: nat := if expiry > s.now then expiry - s.now else 0;
      assert Enabled(c, s, Tick(wait)) && Enabled(c, Do(c, s, Tick(wait)), Fire(i));
      assert Works(Fire(i)) && WaitsFor(c, s, Fire(i));
    }
  }

  ghost predicate WaitsFor(c: Config, s: State, step: Step)
    requires WellFormed(c, s)
  {
    exists d: nat :: Enabled(c, s, Tick(d)) && Enabled(c, Do(c, s, Tick(d)), step)
  }

  /** One suspicion at rank j of a quiet cluster causes at most (n + 3) * 2^j - 3 further steps, crashes or not. */
  lemma OneElectionTerminates(c: Config, s: State, j: int, view: set<int>, steps: seq<Step>)
    requires Quiet(s) && Runs(c, s, [Suspect(j, view)] + steps)
    requires forall k :: 0 <= k < |steps| ==> !Spontaneous(steps[k])
    ensures Work(steps) <= (c.n + 3) * Pow2(j) - 3
  {
    assert ([Suspect(j, view)] + steps)[1..] == steps;
    QuietOwesNothing(c.n, s.nodes, s.live);
    ElectionMeasure(c, s, j, view);
    var s' := RunElection(c, s, j, view);
    WorkIsPaidFor(c, s', steps);
    NoFuel(c, steps);
    WeightIsPower(c.n, j);
  }
}
