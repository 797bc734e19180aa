/**
 What a cascade decides: without further suspicions, claims and crashes, and with no announcement of anybody else
 on its way, whether every quiet end is agreement on the lowest live node can be read off the current state.
 */
module ElectionCascade {
  import opened Options
  import opened NodeState
  import opened ElectionEngine
  import opened Election
  import opened ElectionTermination
  import opened ElectionOutcome
  import opened ElectionFailures

  // ---- Two more invariants -------------------------------------------------------------------------

  /** Candidates sign with their own rank, and answers come from a node of higher priority. */
  ghost predicate Signed(s: State) {
    forall p :: p in s.net ==>
      (p.msg.Election? ==> p.msg.candidate == p.from) && (p.msg.OK? ==> 0 <= p.from < p.to)
  }

  /** A timer is armed only while an election runs. */
  ghost predicate Armed(s: State) {
    forall i :: 0 <= i < |s.nodes| && s.nodes[i].timer.Some? ==> s.nodes[i].running
  }

  ghost predicate Proper(c: Config, s: State) { Inv(c, s) && Signed(s) && Armed(s) }

  lemma ActProper(c: Config, s: State, i: int, r: (Elector, seq<Send>))
    requires WellFormed(c, s) && 0 <= i < c.n && Signed(s) && Armed(s) && (r.0.timer.Some? ==> r.0.running)
    requires forall k :: 0 <= k < |r.1| ==>
      (r.1[k].msg.Election? ==> r.1[k].msg.candidate == i) && (r.1[k].msg.OK? ==> i < r.1[k].to)
    ensures Signed(Act(c, s, i, r)) && Armed(Act(c, s, i, r))
  {
  }

  lemma DeliverProper(c: Config, s: State, k: nat)
    requires Proper(c, s) && Enabled(c, s, Deliver(k))
    ensures Signed(Do(c, s, Deliver(k))) && Armed(Do(c, s, Deliver(k)))
  {
    var p, s1 := s.net[k], s.(net := Without(s.net, k));
    assert p in s.net;
    forall q | q in s1.net
      ensures q in s.net
    {
      WithoutMember(s.net, k, q);
    }
    match p.msg
    case Election(candidate) => ActProper(c, s1, p.to, (s1.nodes[p.to], OnElection(p.to, candidate, p.from).0));
    case OK => ActProper(c, s1, p.to, (OnOK(s1.nodes[p.to]), []));
    case Coordinator(m) => ActProper(c, s1, p.to, (OnCoordinator(s1.nodes[p.to], m), []));
  }

  lemma ElectionProper(c: Config, s: State, i: int, view: set<int>)
    requires WellFormed(c, s) && 0 <= i < c.n && Signed(s) && Armed(s)
    ensures Signed(RunElection(c, s, i, view)) && Armed(RunElection(c, s, i, view))
  {
    ActProper(c, s, i, Start(s.nodes[i], i, Peers(c, i), Lower(c, i, view), s.now + c.okTimeout));
  }

  lemma StepProper(c: Config, s: State, step: Step)
    requires Proper(c, s) && Enabled(c, s, step)
    ensures Proper(c, Do(c, s, step))
  {
    StepInv(c, s, step);
    match step
    case Suspect(i, view) => ElectionProper(c, s, i, view);
    case Claim => ActProper(c, s, 0, (OnCoordinator(s.nodes[0], 0), SendAll(Peers(c, 0), Coordinator(0))));
    case RunStart(k, view) =>
      if s.starts[k] in s.live {
        ElectionProper(c, s.(starts := Without(s.starts, k)), s.starts[k], view);
      }
    case Deliver(k) => DeliverProper(c, s, k);
    case Drop(k) =>
      forall q | q in Without(s.net, k)
        ensures q in s.net
      {
        WithoutMember(s.net, k, q);
      }
    case Fire(i) => ActProper(c, s, i, OnTimer(s.nodes[i], i, Peers(c, i)));
    case Tick(_) =>
    case Crash(_) =>
  }

  lemma NextProper(c: Config, s: State, s': State)
    requires Proper(c, s) && Next(c, s, s')
    ensures Proper(c, s')
  {
    var step :| Enabled(c, s, step) && s' == Do(c, s, step);
    StepProper(c, s, step);
  }

  lemma {:induction false} ReachableProper(c: Config, run: seq<State>, k: nat)
    requires Behaviour(c, run) && k < |run|
    ensures Proper(c, run[k])
  {
    if k == 0 {
      ReachableInv(c, run, 0);
    } else {
      ReachableProper(c, run, k - 1);
      assert StepAt(c, run, k - 1);
      NextProper(c, run[k - 1], run[k]);
    }
  }

  // ---- What is sure to happen ----------------------------------------------------------------------

  /** The steps of a cascade: what is handled, and time. */
  predicate Cascades(step: Step) { !Spontaneous(step) && !step.Crash? }

  ghost predicate Cascade(steps: seq<Step>) {
    forall k :: 0 <= k < |steps| ==> Cascades(steps[k])
  }

  /** Node `i` is not running and is about to start, or is being asked to. */
  ghost predicate Starts(s: State, i: int)
    requires 0 <= i < |s.nodes|
  {
    !s.nodes[i].running &&
      (i in s.starts || exists p :: p in s.net && p.to == i && p.msg.Election? && i < p.msg.candidate)
  }

  /** Some live node is sure to start an election, in which it will ask the lowest live one. */
  ghost predicate Spark(c: Config, s: State)
    requires WellFormed(c, s)
  {
    exists i :: i in s.live && Starts(s, i)
  }

  /** `l` has won, or competes or will compete with nobody to stop it. */
  ghost predicate Bound(c: Config, s: State, l: int)
    requires WellFormed(c, s) && Lowest(s, l)
  {
    Won(s, l) || (Unopposed(s, l) && (Competes(c, s, l) || Spark(c, s)))
  }

  ghost predicate Calm(c: Config, s: State, l: int) { Proper(c, s) && Lowest(s, l) && NothingLate(s, l) }

  lemma CalmIsOrderly(c: Config, s: State, l: int)
    requires Calm(c, s, l)
    ensures Inv(c, s) && Orderly(s, l)
  {
  }

  // ---- Nothing stops it ----------------------------------------------------------------------------

  lemma OthersStillStart(c: Config, s: State, s1: State, i: int)
    requires WellFormed(c, s) && WellFormed(c, s1) && i in s.live && Starts(s, i) && s1.live == s.live
    requires s1.nodes[i].running == s.nodes[i].running
    requires i in s.starts ==> i in s1.starts
    requires forall p :: p in s.net && p.to == i && p.msg.Election? && i < p.msg.candidate ==>
      p in s1.net || i in s1.starts
    ensures Spark(c, s1)
  {
    assert Starts(s1, i);
  }

  lemma RunStartKeepsBound(c: Config, s: State, k: nat, view: set<int>, l: int)
    requires Calm(c, s, l) && Unopposed(s, l) && Spark(c, s) && Enabled(c, s, RunStart(k, view))
    ensures var s' := Do(c, s, RunStart(k, view)); Inv(c, s') && Lowest(s', l) && NothingLate(s', l) && Bound(c, s', l)
  {
    var j, s1 := s.starts[k], s.(starts := Without(s.starts, k));
    RunStartKeeps(c, s, k, view);
    if j in s.live && !s.nodes[j].running {
      StartsMayRun(c, s, k);
      ElectionDecides(c, s1, j, view, l);
    } else {
      var i :| i in s.live && Starts(s, i);
      WithoutMember(s.starts, k, i);
      assert j in s.live ==> Do(c, s, RunStart(k, view)) == Act(c, s1, j, (s.nodes[j], []));
      OthersStillStart(c, s, Do(c, s, RunStart(k, view)), i);
    }
  }

  lemma FireKeepsBound(c: Config, s: State, j: int, l: int)
    requires Calm(c, s, l) && Unopposed(s, l) && Spark(c, s) && Enabled(c, s, Fire(j))
    ensures var s' := Do(c, s, Fire(j)); Inv(c, s') && Lowest(s', l) && NothingLate(s', l) && Bound(c, s', l)
  {
    FireKeeps(c, s, j);
    NobodyLowerIsAlive(c, s, j);
    VictoryWins(c, s, l);
  }

  lemma DeliverKeepsSpark(c: Config, s: State, k: nat, i: int)
    requires WellFormed(c, s) && Enabled(c, s, Deliver(k)) && TakesOut(s, k) && i in s.live && Starts(s, i)
    ensures WellFormed(c, Do(c, s, Deliver(k))) && Spark(c, Do(c, s, Deliver(k)))
  {
    var s', p := Do(c, s, Deliver(k)), s.net[k];
    assert forall q :: q in Without(s.net, k) ==> q in s'.net;
    if p.to == i && p.msg.Election? && i < p.msg.candidate {
      assert s'.starts[|s'.starts| - 1] == i;
    }
    assert Starts(s', i);
  }

  lemma DeliverKeepsBound(c: Config, s: State, k: nat, l: int)
    requires Calm(c, s, l) && Unopposed(s, l) && Spark(c, s) && Enabled(c, s, Deliver(k))
    ensures var s' := Do(c, s, Deliver(k)); Inv(c, s') && Lowest(s', l) && NothingLate(s', l) && Bound(c, s', l)
  {
    DeliverKeeps(c, s, k);
    forall q
      ensures q in s.net <==> q == s.net[k] || q in Without(s.net, k)
    {
      WithoutMember(s.net, k, q);
    }
    var i :| i in s.live && Starts(s, i);
    DeliverKeepsSpark(c, s, k, i);
  }

  lemma QuietStepKeepsBound(c: Config, s: State, step: Step, l: int)
    requires Calm(c, s, l) && Unopposed(s, l) && Spark(c, s) && Enabled(c, s, step) && (step.Drop? || step.Tick?)
    ensures var s' := Do(c, s, step); Inv(c, s') && Lowest(s', l) && NothingLate(s', l) && Bound(c, s', l)
  {
    StepInv(c, s, step);
    if step.Drop? {
      forall q
        ensures q in s.net <==> q == s.net[step.k] || q in Without(s.net, step.k)
      {
        WithoutMember(s.net, step.k, q);
      }
    }
    var i :| i in s.live && Starts(s, i);
    OthersStillStart(c, s, Do(c, s, step), i);
  }

  lemma StepKeepsBound(c: Config, s: State, step: Step, l: int)
    requires Calm(c, s, l) && Bound(c, s, l) && Enabled(c, s, step) && Cascades(step)
    ensures Calm(c, Do(c, s, step), l) && Bound(c, Do(c, s, step), l)
  {
    StepProper(c, s, step);
    if Won(s, l) || (Unopposed(s, l) && Competes(c, s, l)) {
      CalmIsOrderly(c, s, l);
      StepDecides(c, s, step, l);
    } else {
      match step
      case RunStart(k, view) => RunStartKeepsBound(c, s, k, view, l);
      case Deliver(k) => DeliverKeepsBound(c, s, k, l);
      case Fire(i) => FireKeepsBound(c, s, i, l);
      case Drop(_) => QuietStepKeepsBound(c, s, step, l);
      case Tick(_) => QuietStepKeepsBound(c, s, step, l);
    }
  }

  lemma {:induction false} BoundCascadeAgrees(c: Config, s: State, steps: seq<Step>, l: int)
    requires Calm(c, s, l) && Bound(c, s, l) && Runs(c, s, steps) && Cascade(steps) && Quiet(End(c, s, steps))
    ensures Agreed(End(c, s, steps), l)
    decreases |steps|
  {
    if steps == [] {
      BoundAndQuietAgrees(c, s, l);
    } else {
      StepKeepsBound(c, s, steps[0], l);
      BoundCascadeAgrees(c, Do(c, s, steps[0]), steps[1..], l);
    }
  }

  lemma BoundAndQuietAgrees(c: Config, s: State, l: int)
    requires Calm(c, s, l) && Bound(c, s, l) && Quiet(s)
    ensures Agreed(s, l)
  {
    assert Awaits(c, s, l);
    forall k | 0 <= k < |s.nodes| && k in s.live
      ensures s.nodes[k].master == l
    {
      assert Learns(s, k, l);
    }
  }

  // ---- Otherwise it can fail -----------------------------------------------------------------------

  /** A live node that does not believe in `l` and is not about to be told of it. */
  ghost predicate Missed(c: Config, s: State, l: int, x: int) {
    Proper(c, s) && Lowest(s, l) && x in s.live && !Learns(s, x, l)
  }

  /** A run of the cascade to a quiet end at which node `x` does not believe in `l`. */
  ghost predicate Misses(c: Config, s: State, steps: seq<Step>, l: int, x: int) {
    && Runs(c, s, steps) && Cascade(steps) && Quiet(End(c, s, steps))
    && 0 <= x < |End(c, s, steps).nodes| && x in End(c, s, steps).live && End(c, s, steps).nodes[x].master != l
  }

  lemma MissesAfterStep(c: Config, s: State, step: Step, rest: seq<Step>, l: int, x: int)
    requires WellFormed(c, s) && Enabled(c, s, step) && Cascades(step) && Misses(c, Do(c, s, step), rest, l, x)
    ensures Misses(c, s, [step] + rest, l, x)
  {
    StepThenRun(c, s, step, rest);
  }

  /** A step that handles something and in which nobody announces itself. */
  predicate Mute(c: Config, s: State, step: Step)
    requires WellFormed(c, s) && Enabled(c, s, step)
  {
    match step
    case Deliver(_) => true
    case Drop(_) => true
    case RunStart(k, view) =>
      var i := s.starts[k]; i in s.live ==> s.nodes[i].running || Lower(c, i, view) != []
    case _ => false
  }

  lemma MuteStartMisses(c: Config, s: State, k: nat, view: set<int>, l: int, x: int)
    requires Missed(c, s, l, x) && Enabled(c, s, RunStart(k, view)) && Mute(c, s, RunStart(k, view))
    ensures Missed(c, Do(c, s, RunStart(k, view)), l, x)
  {
    StepProper(c, s, RunStart(k, view));
  }

  lemma MuteArrivalMisses(c: Config, s: State, step: Step, l: int, x: int)
    requires Missed(c, s, l, x) && Enabled(c, s, step) && Arrives(step)
    ensures Missed(c, Do(c, s, step), l, x)
  {
    StepProper(c, s, step);
    forall q
      ensures q in s.net <==> q == s.net[step.k] || q in Without(s.net, step.k)
    {
      WithoutMember(s.net, step.k, q);
    }
  }

  lemma MuteStep(c: Config, s: State, step: Step, l: int, x: int)
    requires Missed(c, s, l, x) && Enabled(c, s, step) && Mute(c, s, step)
    ensures Missed(c, Do(c, s, step), l, x) && Measure(c, Do(c, s, step)) < Measure(c, s)
  {
    StepMeasure(c, s, step);
    if step.RunStart? {
      MuteStartMisses(c, s, step.k, step.view, l, x);
    } else {
      MuteArrivalMisses(c, s, step, l, x);
    }
  }

  /** With nothing in flight no election but that of the lowest live node can run. */
  lemma NothingLeft(c: Config, s: State, l: int, x: int)
    requires Missed(c, s, l, x) && s.net == [] && s.starts == [] && !s.nodes[l].running
    ensures Misses(c, s, [], l, x)
  {
    forall i | 0 <= i < |s.nodes| && i in s.live
      ensures s.nodes[i].timer.None?
    {
      assert Awaits(c, s, i);
      assert s.nodes[i].running && i != l ==> Covered(c, s, i, l, s.nodes[i].timer.value);
    }
  }

  // ---- ... because nobody is going to compete ------------------------------------------------------

  /** Neither does `l` compete nor is anybody sure to ask it to. */
  ghost predicate Cold(c: Config, s: State, l: int)
    requires WellFormed(c, s) && Lowest(s, l)
  {
    !Competes(c, s, l) && !Spark(c, s)
  }

  lemma ColdStart(c: Config, s: State, l: int, x: int)
    requires Missed(c, s, l, x) && Cold(c, s, l) && s.starts != []
    ensures Enabled(c, s, RunStart(0, s.live)) && Mute(c, s, RunStart(0, s.live))
    ensures var s' := Do(c, s, RunStart(0, s.live)); WellFormed(c, s') && Lowest(s', l) && Cold(c, s', l)
  {
    var i, s' := s.starts[0], Do(c, s, RunStart(0, s.live));
    assert i in s.starts;
    if i in s.live {
      assert !Starts(s, i);
      assert s.nodes[i := s.nodes[i]] == s.nodes && s.net + Packets(c, s, i, []) == s.net;
    }
    forall j | j in s.live
      ensures !Starts(s', j)
    {
      WithoutMember(s.starts, 0, j);
      assert !Starts(s, j);
    }
    WithoutMember(s.starts, 0, l);
  }

  /** A request that reaches a running node is answered and starts nothing new. */
  lemma ColdRequest(c: Config, s: State, k: nat, l: int, x: int)
    requires Missed(c, s, l, x) && Cold(c, s, l) && Enabled(c, s, Deliver(k)) && TakesOut(s, k)
    requires s.net[k].msg.Election?
    ensures var s' := Do(c, s, Deliver(k)); WellFormed(c, s') && Lowest(s', l) && Cold(c, s', l)
  {
    var s', p := Do(c, s, Deliver(k)), s.net[k];
    assert p in s.net && !Starts(s, p.to);
    forall j | j in s.live
      ensures !Starts(s', j)
    {
      assert !Starts(s, j);
    }
  }

  lemma ColdArrival(c: Config, s: State, k: nat, l: int, x: int)
    requires Missed(c, s, l, x) && Cold(c, s, l) && k < |s.net| && TakesOut(s, k)
    requires s.net[k].to !in s.live || s.net[k].msg.Coordinator?
    ensures Enabled(c, s, ArrivalOf(s, k))
    ensures var s' := Do(c, s, ArrivalOf(s, k)); WellFormed(c, s') && Lowest(s', l) && Cold(c, s', l)
  {
    var s' := Do(c, s, ArrivalOf(s, k));
    forall j | j in s.live
      ensures !Starts(s', j)
    {
      assert !Starts(s, j);
    }
  }

  /** When only answers are left they stop elections and start none. */
  lemma ColdAnswer(c: Config, s: State, l: int, x: int)
    requires Missed(c, s, l, x) && Cold(c, s, l) && s.starts == [] && s.net != [] && TakesOut(s, 0)
    requires forall p :: p in s.net ==> p.msg.OK?
    ensures Enabled(c, s, ArrivalOf(s, 0))
    ensures var s' := Do(c, s, ArrivalOf(s, 0)); WellFormed(c, s') && Lowest(s', l) && Cold(c, s', l)
  {
    var s' := Do(c, s, ArrivalOf(s, 0));
    assert s.net[0] in s.net;
    forall j | j in s.live
      ensures !Starts(s', j)
    {
    }
  }

  lemma TakingOut(s: State, k: nat)
    requires k < |s.net|
    ensures TakesOut(s, k)
  {
    forall q
      ensures q in s.net <==> q == s.net[k] || q in Without(s.net, k)
    {
      WithoutMember(s.net, k, q);
    }
  }

  /** Starts first, then what is no answer, answers last: then nobody ever asks `l`. */
  lemma ColdStep(c: Config, s: State, l: int, x: int) returns (step: Step)
    requires Missed(c, s, l, x) && Cold(c, s, l) && (s.starts != [] || s.net != [])
    ensures Enabled(c, s, step) && Mute(c, s, step)
    ensures var s' := Do(c, s, step); WellFormed(c, s') && Lowest(s', l) && Cold(c, s', l)
  {
    if s.starts != [] {
      step := RunStart(0, s.live);
      ColdStart(c, s, l, x);
    } else if k: nat :| k < |s.net| && !s.net[k].msg.OK? {
      step := ArrivalOf(s, k);
      TakingOut(s, k);
      if s.net[k].msg.Election? && s.net[k].to in s.live {
        ColdRequest(c, s, k, l, x);
      } else {
        ColdArrival(c, s, k, l, x);
      }
    } else {
      step := ArrivalOf(s, 0);
      TakingOut(s, 0);
      ColdAnswer(c, s, l, x);
    }
  }

  lemma {:induction false} ColdMisses(c: Config, s: State, l: int, x: int) returns (steps: seq<Step>)
    requires Missed(c, s, l, x) && Cold(c, s, l)
    ensures Misses(c, s, steps, l, x)
    decreases Measure(c, s)
  {
    if s.starts == [] && s.net == [] {
      NothingLeft(c, s, l, x);
      steps := [];
    } else {
      var step := ColdStep(c, s, l, x);
      MuteStep(c, s, step, l, x);
      steps := ColdMisses(c, Do(c, s, step), l, x);
      MissesAfterStep(c, s, step, steps, l, x);
      steps := [step] + steps;
    }
  }

  // ---- ... or because the lowest live node is stopped ----------------------------------------------

  /** The answer `o` that stops `l` is in flight. */
  predicate Opposed(s: State, l: int, o: Packet) {
    o in s.net && o.msg.OK? && o.to == l
  }

  /** All ranks, the dead ones too. */
  function Everybody(c: Config): set<int> { set i | i in Ranks(c.n) }

  /** With dead nodes of higher priority believed alive nobody wins at once. */
  lemma NobodyWinsAtOnce(c: Config, s: State, k: nat, l: int, x: int, o: Packet)
    requires Missed(c, s, l, x) && Opposed(s, l, o) && k < |s.starts|
    ensures Enabled(c, s, RunStart(k, Everybody(c))) && Mute(c, s, RunStart(k, Everybody(c)))
    ensures Opposed(Do(c, s, RunStart(k, Everybody(c))), l, o)
  {
    forall i
      ensures i in Everybody(c) <==> 0 <= i < c.n
    {
      MembersOfRanks(c.n, i);
    }
    var i := s.starts[k];
    if i in s.live {
      LowerNodes(c, i, Everybody(c), o.from);
    }
  }

  lemma OppositionStays(c: Config, s: State, k: nat, l: int, o: Packet)
    requires WellFormed(c, s) && Opposed(s, l, o) && k < |s.net| && s.net[k] != o
    ensures Enabled(c, s, ArrivalOf(s, k)) && Opposed(Do(c, s, ArrivalOf(s, k)), l, o)
  {
    WithoutMember(s.net, k, o);
  }

  lemma LastOpposition(c: Config, s: State, l: int, x: int, o: Packet)
    requires Missed(c, s, l, x) && Opposed(s, l, o) && s.starts == [] && forall p :: p in s.net ==> p == o
    ensures Enabled(c, s, Deliver(0))
    ensures var s' := Do(c, s, Deliver(0));
      && |s'.net| < |s.net| && s'.starts == [] && WellFormed(c, s') && !s'.nodes[l].running
      && forall p :: p in s'.net ==> p == o
  {
    assert s.net[0] in s.net;
    TakingOut(s, 0);
  }

  /** Copies of that answer, if there are several, arrive one after the other. */
  lemma {:induction false} OppositionArrives(c: Config, s: State, l: int, x: int, o: Packet) returns (steps: seq<Step>)
    requires Missed(c, s, l, x) && s.starts == [] && (forall p :: p in s.net ==> p == o)
    requires o.msg.OK? && o.to == l && (s.net == [] ==> !s.nodes[l].running)
    ensures Misses(c, s, steps, l, x)
    decreases |s.net|
  {
    if s.net == [] {
      NothingLeft(c, s, l, x);
      steps := [];
    } else {
      assert s.net[0] in s.net;
      LastOpposition(c, s, l, x, o);
      MuteStep(c, s, Deliver(0), l, x);
      steps := OppositionArrives(c, Do(c, s, Deliver(0)), l, x, o);
      MissesAfterStep(c, s, Deliver(0), steps, l, x);
      steps := [Deliver(0)] + steps;
    }
  }

  lemma OpposedStep(c: Config, s: State, l: int, x: int, o: Packet) returns (step: Step)
    requires Missed(c, s, l, x) && Opposed(s, l, o) && (s.starts != [] || exists p :: p in s.net && p != o)
    ensures Enabled(c, s, step) && Mute(c, s, step) && Opposed(Do(c, s, step), l, o)
  {
    if s.starts != [] {
      step := RunStart(0, Everybody(c));
      NobodyWinsAtOnce(c, s, 0, l, x, o);
    } else {
      var p :| p in s.net && p != o;
      var k: nat :| k < |s.net| && s.net[k] == p;
      step := ArrivalOf(s, k);
      OppositionStays(c, s, k, l, o);
    }
  }

  /** The answer to `l` arrives last, after everything else has been handled. */
  lemma {:induction false} OpposedMisses(c: Config, s: State, l: int, x: int, o: Packet) returns (steps: seq<Step>)
    requires Missed(c, s, l, x) && Opposed(s, l, o)
    ensures Misses(c, s, steps, l, x)
    decreases Measure(c, s)
  {
    if s.starts == [] && forall p :: p in s.net ==> p == o {
      steps := OppositionArrives(c, s, l, x, o);
    } else {
      var step := OpposedStep(c, s, l, x, o);
      MuteStep(c, s, step, l, x);
      steps := OpposedMisses(c, Do(c, s, step), l, x, o);
      MissesAfterStep(c, s, step, steps, l, x);
      steps := [step] + steps;
    }
  }

  lemma UnboundCanMiss(c: Config, s: State, l: int) returns (steps: seq<Step>, x: int)
    requires Calm(c, s, l) && !Bound(c, s, l)
    ensures Misses(c, s, steps, l, x)
  {
    x :| 0 <= x < |s.nodes| && x in s.live && !Learns(s, x, l);
    if Unopposed(s, l) {
      steps := ColdMisses(c, s, l, x);
    } else {
      var o :| o in s.net && o.msg.OK? && o.to == l;
      steps := OpposedMisses(c, s, l, x, o);
    }
  }

  /**
   In every state in which nobody but the lowest live node `l` is on its way to being announced: without further
   suspicions, claims and crashes every quiet end is agreement on `l`, whatever the order and whoever is believed
   alive, exactly if `l` has won, or competes or is sure to be asked with no answer on its way that stops it.
   */
  lemma CascadeAgreesExactly(c: Config, s: State, l: int)
    requires Calm(c, s, l)
    ensures Bound(c, s, l) <==>
      forall steps :: Runs(c, s, steps) && Cascade(steps) && Quiet(End(c, s, steps)) ==> Agreed(End(c, s, steps), l)
  {
    if Bound(c, s, l) {
      forall steps | Runs(c, s, steps) && Cascade(steps) && Quiet(End(c, s, steps))
        ensures Agreed(End(c, s, steps), l)
      {
        BoundCascadeAgrees(c, s, steps, l);
      }
    } else {
      var steps, x := UnboundCanMiss(c, s, l);
      assert Runs(c, s, steps) && Cascade(steps) && Quiet(End(c, s, steps)) && !Agreed(End(c, s, steps), l);
    }
  }
}
