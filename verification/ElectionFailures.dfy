/**
 Elections that end without agreement.

 ElectionOutcome needs that the lowest live node stays alive and that no older announcement is about.  Here both
 are shown to be needed, in clusters of every size: a crash of the lowest live node at the wrong moment always
 defeats an election, and once the election is over the announcements in flight decide exactly.
 */
module ElectionFailures {
  import opened Options
  import opened NodeState
  import opened ElectionEngine
  import opened Election
  import opened ElectionTermination
  import opened ElectionOutcome

  /** A step and then a run. */
  lemma StepThenRun(c: Config, s: State, step: Step, rest: seq<Step>)
    requires WellFormed(c, s) && Enabled(c, s, step) && Runs(c, Do(c, s, step), rest)
    ensures Runs(c, s, [step] + rest) && End(c, s, [step] + rest) == End(c, Do(c, s, step), rest)
  {
    assert ([step] + rest)[1..] == rest;
  }

  // ---- The lowest live node answers and crashes ----------------------------------------------------

  /** `i` is the live node of highest priority but one. */
  ghost predicate SecondLowest(s: State, l: int, i: int) {
    Lowest(s, l) && i in s.live && i != l && forall j :: j in s.live && j < i ==> j == l
  }

  lemma {:induction false} OnlyLowerNode(m: nat, i: int, view: set<int>, l: int)
    requires 0 <= l < i && l in view && forall j :: 0 <= j < i && j in view ==> j == l
    ensures LowerAmong(m, i, view) == if l < m then [l] else []
  {
    if m > 0 {
      OnlyLowerNode(m - 1, i, view, l);
      OneMoreRank(m - 1, i, view);
    }
  }

  /** The crash, the election that the crashed node does not start, and the arrival of its answer. */
  function Overtaken(s: State, l: int): seq<Step> {
    [Crash(l)] + ([RunStart(0, s.live - {l})] + ([Deliver(0)] + []))
  }

  /** The suspicion and the answer before that. */
  function FatalAnswer(s: State, l: int, i: int): seq<Step> {
    [Suspect(i, s.live)] + ([Deliver(0)] + Overtaken(s, l))
  }

  lemma AskOnlyOne(c: Config, s: State, l: int, i: int)
    requires Inv(c, s) && Quiet(s) && SecondLowest(s, l, i)
    ensures Enabled(c, s, Suspect(i, s.live))
    ensures Do(c, s, Suspect(i, s.live)) ==
      s.(nodes := s.nodes[i := Elector(true, Some(s.now + c.okTimeout), s.nodes[i].master)],
         net := [Packet(i, l, Election(i), s.now + c.delay)])
  {
    assert l < i by { assert NotAbove(s, l); }
    OnlyLowerNode(c.n, i, s.live, l);
    assert Lower(c, i, s.live) == [l];
    assert Awaits(c, s, i);
    var sends := SendAll([l], Election(i));
    assert [] + Packets(c, s, i, sends) == [Packet(i, l, Election(i), s.now + c.delay)];
  }

  lemma AnswerOnce(c: Config, s: State, s1: State, l: int, i: int)
    requires Inv(c, s) && Quiet(s) && SecondLowest(s, l, i)
    requires s1 == s.(nodes := s.nodes[i := Elector(true, Some(s.now + c.okTimeout), s.nodes[i].master)],
                      net := [Packet(i, l, Election(i), s.now + c.delay)])
    ensures Enabled(c, s1, Deliver(0))
    ensures Do(c, s1, Deliver(0)) == s1.(net := [Packet(l, i, OK, s.now + c.delay)], starts := [l])
  {
    assert l < i by { assert NotAbove(s, l); }
    assert Without(s1.net, 0) == [];
    assert s1.nodes[l := s1.nodes[l]] == s1.nodes;
    assert [] + Packets(c, s1, l, [Send(i, OK)]) == [Packet(l, i, OK, s.now + c.delay)];
  }

  lemma StandsDown(c: Config, s: State, s2: State, l: int, i: int)
    requires Inv(c, s) && Quiet(s) && SecondLowest(s, l, i)
    requires s2 == s.(nodes := s.nodes[i := Elector(true, Some(s.now + c.okTimeout), s.nodes[i].master)],
                      net := [Packet(l, i, OK, s.now + c.delay)], starts := [l])
    ensures Runs(c, s2, Overtaken(s, l))
    ensures End(c, s2, Overtaken(s, l)) == s.(live := s.live - {l})
  {
    assert Awaits(c, s, i);
    var s3 := s2.(live := s.live - {l});
    assert Do(c, s2, Crash(l)) == s3;
    assert Without([l], 0) == [];
    var s4 := s3.(starts := []);
    assert Do(c, s3, RunStart(0, s.live - {l})) == s4;
    var s5 := s.(live := s.live - {l});
    assert Without(s4.net, 0) == [] && [] + Packets(c, s4.(net := []), i, []) == [];
    assert s4.nodes[i := OnOK(s4.nodes[i])] == s.nodes;
    assert Do(c, s4, Deliver(0)) == s5;
    StepThenRun(c, s4, Deliver(0), []);
    StepThenRun(c, s3, RunStart(0, s.live - {l}), [Deliver(0)] + []);
    StepThenRun(c, s2, Crash(l), [RunStart(0, s.live - {l})] + ([Deliver(0)] + []));
  }

  /**
   In every quiet cluster the lowest live node can answer the next one and crash: the next one stands down, the
   cluster is quiet, nothing has changed but the crash, and nobody who is left believes in a live master.
   */
  lemma CrashDefeatsElection(c: Config, s: State, l: int, i: int)
    requires Inv(c, s) && Quiet(s) && SecondLowest(s, l, i)
    ensures Runs(c, s, FatalAnswer(s, l, i)) && End(c, s, FatalAnswer(s, l, i)) == s.(live := s.live - {l})
    ensures var s' := End(c, s, FatalAnswer(s, l, i));
      Quiet(s') && forall k :: k in s'.live ==> s'.nodes[k].master !in s'.live
  {
    var s1 := Do(c, s, Suspect(i, s.live));
    AskOnlyOne(c, s, l, i);
    AnswerOnce(c, s, s1, l, i);
    StandsDown(c, s, Do(c, s1, Deliver(0)), l, i);
    StepThenRun(c, s1, Deliver(0), Overtaken(s, l));
    StepThenRun(c, s, Suspect(i, s.live), [Deliver(0)] + Overtaken(s, l));
    forall k | k in s.live - {l}
      ensures s.nodes[k].master !in s.live - {l}
    {
      assert NotAbove(s, s.nodes[k].master) && NotAbove(s, l);
    }
  }

  // ---- Announcements that arrive late --------------------------------------------------------------

  /** All that is left of past elections are answers and announcements in flight. */
  ghost predicate WindingDown(s: State) {
    && s.starts == []
    && (forall p :: p in s.net ==> !p.msg.Election?)
    && (forall i :: 0 <= i < |s.nodes| && i in s.live ==> s.nodes[i].timer.None?)
  }

  predicate Arrives(step: Step) { step.Deliver? || step.Drop? }

  /** The messages in flight arrive in the order of `steps`, at live nodes or not, until none is left. */
  ghost predicate Drains(c: Config, s: State, steps: seq<Step>) {
    Runs(c, s, steps) && (forall k :: 0 <= k < |steps| ==> Arrives(steps[k])) && End(c, s, steps).net == []
  }

  function ArrivalOf(s: State, k: nat): Step
    requires k < |s.net|
  {
    if s.net[k].to in s.live then Deliver(k) else Drop(k)
  }

  /** An arrival takes its message out and changes no other node; only an announcement changes a master. */
  lemma ArrivalWindsDown(c: Config, s: State, step: Step)
    requires WellFormed(c, s) && WindingDown(s) && Enabled(c, s, step) && Arrives(step)
    ensures step == ArrivalOf(s, step.k)
    ensures var (s', p) := (Do(c, s, step), s.net[step.k]);
      && WellFormed(c, s') && WindingDown(s') && s'.live == s.live && s'.net == Without(s.net, step.k)
      && (forall i :: 0 <= i < c.n ==>
        s'.nodes[i].master ==
          if p.to == i && i in s.live && p.msg.Coordinator? then p.msg.master else s.nodes[i].master)
  {
    var s', p := Do(c, s, step), s.net[step.k];
    forall q
      ensures q in Without(s.net, step.k) ==> q in s.net
    {
      WithoutMember(s.net, step.k, q);
    }
    assert p in s.net;
    assert Without(s.net, step.k) + Packets(c, s, p.to, []) == Without(s.net, step.k);
    assert s'.net == Without(s.net, step.k);
  }

  lemma ArrivalKeepsAgreement(c: Config, s: State, step: Step, l: int)
    requires WellFormed(c, s) && WindingDown(s) && Enabled(c, s, step) && Arrives(step)
    requires NothingLate(s, l) && Won(s, l)
    ensures NothingLate(Do(c, s, step), l) && Won(Do(c, s, step), l)
  {
    var s' := Do(c, s, step);
    ArrivalWindsDown(c, s, step);
    forall q
      ensures q in s.net <==> q == s.net[step.k] || q in s'.net
    {
      WithoutMember(s.net, step.k, q);
    }
    forall k | 0 <= k < |s'.nodes| && k in s'.live
      ensures Learns(s', k, l)
    {
      assert Learns(s, k, l);
    }
  }

  lemma {:induction false} DrainingAgrees(c: Config, s: State, steps: seq<Step>, l: int)
    requires WellFormed(c, s) && WindingDown(s) && Drains(c, s, steps) && NothingLate(s, l) && Won(s, l)
    ensures Agreed(End(c, s, steps), l)
    decreases |steps|
  {
    if steps == [] {
      assert forall k :: 0 <= k < |s.nodes| && k in s.live ==> Learns(s, k, l);
    } else {
      ArrivalWindsDown(c, s, steps[0]);
      ArrivalKeepsAgreement(c, s, steps[0], l);
      DrainingAgrees(c, Do(c, s, steps[0]), steps[1..], l);
    }
  }

  lemma ArrivalThenDrain(c: Config, s: State, k: nat, rest: seq<Step>)
    requires WellFormed(c, s) && WindingDown(s) && k < |s.net| && Drains(c, Do(c, s, ArrivalOf(s, k)), rest)
    ensures Drains(c, s, [ArrivalOf(s, k)] + rest)
    ensures End(c, s, [ArrivalOf(s, k)] + rest) == End(c, Do(c, s, ArrivalOf(s, k)), rest)
  {
    StepThenRun(c, s, ArrivalOf(s, k), rest);
  }

  /** A node that nothing is announced to keeps its belief. */
  lemma {:induction false} UntoldKeepsBelief(c: Config, s: State, i: int) returns (steps: seq<Step>)
    requires WellFormed(c, s) && WindingDown(s) && 0 <= i < c.n
    requires forall p :: p in s.net && p.to == i ==> !p.msg.Coordinator?
    ensures Drains(c, s, steps) && i < |End(c, s, steps).nodes| && End(c, s, steps).live == s.live
    ensures End(c, s, steps).nodes[i].master == s.nodes[i].master
    decreases |s.net|
  {
    if s.net == [] {
      steps := [];
    } else {
      var s1 := Do(c, s, ArrivalOf(s, 0));
      ArrivalWindsDown(c, s, ArrivalOf(s, 0));
      assert s.net[0] in s.net && forall p :: p in s1.net ==> p in s.net;
      steps := UntoldKeepsBelief(c, s1, i);
      ArrivalThenDrain(c, s, 0, steps);
      steps := [ArrivalOf(s, 0)] + steps;
    }
  }

  /** The announcement that arrives last is believed, and each one in flight may be the last. */
  lemma {:induction false} LastIsBelieved(c: Config, s: State, k: nat) returns (steps: seq<Step>)
    requires WellFormed(c, s) && WindingDown(s) && k < |s.net| && s.net[k].to in s.live && s.net[k].msg.Coordinator?
    ensures Drains(c, s, steps) && s.net[k].to < |End(c, s, steps).nodes| && End(c, s, steps).live == s.live
    ensures End(c, s, steps).nodes[s.net[k].to].master == s.net[k].msg.master
    decreases |s.net|
  {
    var j: nat := if |s.net| == 1 then k else if k == 0 then 1 else 0;
    var s1 := Do(c, s, ArrivalOf(s, j));
    ArrivalWindsDown(c, s, ArrivalOf(s, j));
    if |s.net| == 1 {
      steps := [];
    } else {
      var k1: nat := if k == 0 then 0 else k - 1;
      assert s1.net[k1] == s.net[k];
      steps := LastIsBelieved(c, s1, k1);
    }
    ArrivalThenDrain(c, s, j, steps);
    steps := [ArrivalOf(s, j)] + steps;
  }

  /**
   Once nothing is left but answers and announcements in flight, every order of arrival ends in agreement on the
   lowest live node exactly if all live nodes know it or will be told, and are told of nobody else.
   */
  lemma AgreementHangsOnAnnouncements(c: Config, s: State, l: int)
    requires WellFormed(c, s) && WindingDown(s)
    ensures NothingLate(s, l) && Won(s, l) <==> forall steps :: Drains(c, s, steps) ==> Agreed(End(c, s, steps), l)
  {
    if NothingLate(s, l) && Won(s, l) {
      forall steps | Drains(c, s, steps)
        ensures Agreed(End(c, s, steps), l)
      {
        DrainingAgrees(c, s, steps, l);
      }
    } else {
      var steps := DisagreementIsPossible(c, s, l);
      assert Drains(c, s, steps) && !Agreed(End(c, s, steps), l);
    }
  }

  lemma DisagreementIsPossible(c: Config, s: State, l: int) returns (steps: seq<Step>)
    requires WellFormed(c, s) && WindingDown(s) && !(NothingLate(s, l) && Won(s, l))
    ensures Drains(c, s, steps) && !Agreed(End(c, s, steps), l)
  {
    if NothingLate(s, l) {
      var i :| 0 <= i < |s.nodes| && i in s.live && !Learns(s, i, l);
      assert forall p :: p in s.net && p.to == i && p.msg.Coordinator? ==> p.msg == Coordinator(l);
      steps := UntoldKeepsBelief(c, s, i);
    } else {
      var p :| p in s.net && p.to in s.live && p.msg.Coordinator? && p.msg.master != l;
      var k :| 0 <= k < |s.net| && s.net[k] == p;
      steps := LastIsBelieved(c, s, k);
    }
  }

  // ---- ... and they do arrive late -----------------------------------------------------------------

  /** The states after the master's claim, its crash, and the election of its successor. */
  ghost predicate Succeeded(c: Config, s: State) {
    && WellFormed(c, s) && WindingDown(s) && Lowest(s, 1) && s.live == (set i | i in Ranks(c.n)) - {0}
    && s.nodes[1].master == 1 && Packet(0, 1, Coordinator(0), s.now + c.delay) in s.net
  }

  lemma MembersOfRanks(n: nat, i: int)
    ensures i in Ranks(n) <==> 0 <= i < n
  {
    if 0 <= i < n {
      assert Ranks(n)[i] == i;
    }
  }

  lemma ClaimReaches(c: Config, s: State, i: int)
    requires WellFormed(c, s) && 0 in s.live && 0 < i < c.n
    ensures Packet(0, i, Coordinator(0), s.now + c.delay) in Do(c, s, Claim).net
  {
    PeersExact(Ranks(c.n), 0);
    MembersOfRanks(c.n, i);
    var k :| 0 <= k < |Peers(c, 0)| && Peers(c, 0)[k] == i;
    assert Packets(c, s, 0, SendAll(Peers(c, 0), Coordinator(0)))[k] == Packet(0, i, Coordinator(0), s.now + c.delay);
  }

  lemma SuccessorTakesOver(c: Config, s: State)
    requires WellFormed(c, s) && Lowest(s, 1) && !s.nodes[1].running
    ensures RunElection(c, s, 1, s.live) == Act(c, s, 1, Victory(1, Peers(c, 1)))
  {
    var lower := Lower(c, 1, s.live);
    if lower != [] {
      LowerNodes(c, 1, s.live, lower[0]);
      assert false;
    }
  }

  /** In clusters of every size the successor of a crashed master can be elected before the master's claim arrives. */
  lemma ClaimOutlivesClaimant(c: Config) returns (run: seq<State>, s: State)
    requires c.Valid() && c.n >= 2
    ensures EndsIn(c, run, s) && Succeeded(c, s)
  {
    forall i
      ensures i in Ranks(c.n) <==> 0 <= i < c.n
    {
      MembersOfRanks(c.n, i);
    }
    var s0 := State(0, seq(c.n, i => Elector(false, None, 0)), set i | i in Ranks(c.n), [], []);
    var s1 := Do(c, s0, Claim);
    ClaimReaches(c, s0, 1);
    run := AfterStep(c, [s0], s0, Claim);
    var s2 := Do(c, s1, Crash(0));
    run := AfterStep(c, run, s1, Crash(0));
    SuccessorTakesOver(c, s2);
    s := Do(c, s2, Suspect(1, s2.live));
    run := AfterStep(c, run, s2, Suspect(1, s2.live));
  }

  /** So a quiet cluster may be left believing in a crashed master although a successor was elected. */
  lemma LateAnnouncementIsBelieved(c: Config) returns (run: seq<State>, s: State, steps: seq<Step>)
    requires c.Valid() && c.n >= 2
    ensures EndsIn(c, run, s) && s.nodes[1].master == 1 && Drains(c, s, steps)
    ensures var s' := End(c, s, steps);
      Quiet(s') && Lowest(s', 1) && |s'.nodes| == c.n && s'.nodes[1].master == 0
  {
    run, s := ClaimOutlivesClaimant(c);
    var k :| 0 <= k < |s.net| && s.net[k] == Packet(0, 1, Coordinator(0), s.now + c.delay);
    steps := LastIsBelieved(c, s, k);
    EndIsWellFormed(c, s, steps);
  }

  lemma {:induction false} EndIsWellFormed(c: Config, s: State, steps: seq<Step>)
    requires WellFormed(c, s) && WindingDown(s) && Drains(c, s, steps)
    ensures WellFormed(c, End(c, s, steps)) && Quiet(End(c, s, steps))
    decreases |steps|
  {
    if steps != [] {
      ArrivalWindsDown(c, s, steps[0]);
      EndIsWellFormed(c, Do(c, s, steps[0]), steps[1..]);
    }
  }

  /** A behaviour that ends in `s`, and one step more. */
  ghost predicate EndsIn(c: Config, run: seq<State>, s: State) {
    Behaviour(c, run) && run[|run| - 1] == s && WellFormed(c, s)
  }

  lemma AfterStep(c: Config, run: seq<State>, s: State, step: Step) returns (longer: seq<State>)
    requires EndsIn(c, run, s) && Enabled(c, s, step) && WellFormed(c, Do(c, s, step))
    ensures EndsIn(c, longer, Do(c, s, step))
  {
    var s' := Do(c, s, step);
    longer := run + [s'];
    assert Next(c, s, s');
    forall i | 0 <= i < |longer| - 1
      ensures StepAt(c, longer, i)
    {
      if i < |run| - 1 {
        assert StepAt(c, run, i);
      }
    }
  }
}
