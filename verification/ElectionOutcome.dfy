/**
 What an election is for: as long as the lowest live node stays alive, any mixture of suspicions, claims and
 crashes of others ends in agreement on it when the cluster is quiet again.  ElectionFailures.dfy shows what
 happens otherwise.
 */
module ElectionOutcome {
  import opened Options
  import opened NodeState
  import opened ElectionEngine
  import opened Election
  import opened ElectionTermination

  /** The lowest live node. */
  ghost predicate Lowest(s: State, l: int) { l in s.live && NotAbove(s, l) }

  /** Node `k` knows that `l` is master or is about to be told. */
  ghost predicate Learns(s: State, k: int, l: int)
    requires 0 <= k < |s.nodes|
  {
    s.nodes[k].master == l || exists p :: p in s.net && p.to == k && p.msg == Coordinator(l)
  }

  ghost predicate Won(s: State, l: int) {
    forall k :: 0 <= k < |s.nodes| && k in s.live ==> Learns(s, k, l)
  }

  /** `l` competes, will, or is being asked to. */
  ghost predicate Competes(c: Config, s: State, l: int)
    requires WellFormed(c, s) && Lowest(s, l)
  {
    s.nodes[l].running || l in s.starts || exists p :: p in s.net && p.to == l && p.msg.Election? && l < p.msg.candidate
  }

  /** Whatever is announced to live nodes is `l`. */
  ghost predicate NothingLate(s: State, l: int) {
    forall p :: p in s.net && p.to in s.live && p.msg.Coordinator? ==> p.msg.master == l
  }

  /** ... and candidates sign with their own rank. */
  ghost predicate Orderly(s: State, l: int) {
    NothingLate(s, l) && forall p :: p in s.net && p.msg.Election? ==> p.msg.candidate == p.from
  }

  /** Nobody tells `l` to step down. */
  ghost predicate Unopposed(s: State, l: int) {
    forall p :: p in s.net && p.msg.OK? ==> p.to != l
  }

  ghost predicate Decides(c: Config, s: State, l: int) {
    Inv(c, s) && Lowest(s, l) && Orderly(s, l) && (Won(s, l) || (Unopposed(s, l) && Competes(c, s, l)))
  }

  /** An announcement by `l` reaches everybody. */
  lemma AnnouncingWins(c: Config, s: State, l: int, e: Elector)
    requires WellFormed(c, s) && Lowest(s, l) && e.master == l
    ensures Won(Act(c, s, l, (e, SendAll(Peers(c, l), Coordinator(l)))), l)
  {
    var peers, r := Peers(c, l), (e, SendAll(Peers(c, l), Coordinator(l)));
    var s' := Act(c, s, l, r);
    PeersExact(Ranks(c.n), l);
    forall k | 0 <= k < |s'.nodes| && k in s'.live
      ensures Learns(s', k, l)
    {
      if k != l {
        assert Ranks(c.n)[k] == k && k in peers;
        var j :| 0 <= j < |peers| && peers[j] == k;
        var p := Packets(c, s, l, r.1)[j];
        assert p in s'.net && p.to == k && p.msg == Coordinator(l);
      }
    }
  }

  lemma VictoryWins(c: Config, s: State, l: int)
    requires WellFormed(c, s) && Lowest(s, l)
    ensures Won(Act(c, s, l, Victory(l, Peers(c, l))), l)
  {
    AnnouncingWins(c, s, l, Victory(l, Peers(c, l)).0);
  }

  /** Acting without a word about masters leaves a decision as it is. */
  lemma ActKeepsWon(c: Config, s: State, i: int, r: (Elector, seq<Send>), l: int)
    requires WellFormed(c, s) && Lowest(s, l) && Won(s, l) && 0 <= i < c.n
    requires r.0.master == s.nodes[i].master || r.0.master == l
    ensures Won(Act(c, s, i, r), l)
  {
    var s' := Act(c, s, i, r);
    forall k | 0 <= k < |s'.nodes| && k in s'.live
      ensures Learns(s', k, l)
    {
      assert Learns(s, k, l);
      if s.nodes[k].master != l {
        var p :| p in s.net && p.to == k && p.msg == Coordinator(l);
        assert p in s'.net;
      }
    }
  }

  lemma ActKeepsCompeting(c: Config, s: State, i: int, r: (Elector, seq<Send>), l: int)
    requires WellFormed(c, s) && Lowest(s, l) && Competes(c, s, l) && 0 <= i < c.n
    requires i == l && s.nodes[l].running ==> r.0.running
    ensures Competes(c, Act(c, s, i, r), l)
  {
  }

  /** The only winner of a crash-free election is the lowest live node, and asking starts it competing. */
  lemma ElectionDecides(c: Config, s: State, i: int, view: set<int>, l: int)
    requires Inv(c, s) && i in s.live && s.live <= view && Lowest(s, l) && Orderly(s, l)
    requires Won(s, l) || (Unopposed(s, l) && (Competes(c, s, l) || i == l || !s.nodes[i].running))
    ensures Decides(c, RunElection(c, s, i, view), l)
  {
    ElectionKeeps(c, s, i, view);
    LowerNodes(c, i, view, l);
    var lower := Lower(c, i, view);
    var r := Start(s.nodes[i], i, Peers(c, i), lower, s.now + c.okTimeout);
    var s' := Act(c, s, i, r);
    if !s.nodes[i].running && lower == [] {
      VictoryWins(c, s, l);
    } else if Won(s, l) {
      ActKeepsWon(c, s, i, r, l);
    } else if i == l {
      assert s'.nodes[l].running;
    } else if Competes(c, s, l) {
      ActKeepsCompeting(c, s, i, r, l);
    } else {
      var k :| 0 <= k < |lower| && lower[k] == l;
      var p := Packets(c, s, i, r.1)[k];
      assert p in s'.net && p.to == l && p.msg == Election(i);
    }
  }

  lemma FireDecides(c: Config, s: State, i: int, l: int)
    requires Decides(c, s, l) && Enabled(c, s, Fire(i))
    ensures Decides(c, Do(c, s, Fire(i)), l)
  {
    FireKeeps(c, s, i);
    var r := OnTimer(s.nodes[i], i, Peers(c, i));
    if s.nodes[i].running {
      NobodyLowerIsAlive(c, s, i);
      VictoryWins(c, s, l);
    } else if Won(s, l) {
      ActKeepsWon(c, s, i, r, l);
    } else {
      ActKeepsCompeting(c, s, i, r, l);
    }
  }

  lemma RunStartDecides(c: Config, s: State, k: nat, view: set<int>, l: int)
    requires Decides(c, s, l) && Enabled(c, s, RunStart(k, view))
    ensures Decides(c, Do(c, s, RunStart(k, view)), l)
  {
    RunStartKeeps(c, s, k, view);
    var i, s1 := s.starts[k], s.(starts := Without(s.starts, k));
    WithoutMember(s.starts, k, l);
    if i in s.live {
      StartsMayRun(c, s, k);
      assert Won(s, l) ==> Won(s1, l) by {
        if Won(s, l) {
          assert forall j :: j in s.live ==> Learns(s, j, l) && Learns(s1, j, l) == Learns(s, j, l);
        }
      }
      assert i != l && Competes(c, s, l) ==> Competes(c, s1, l);
      ElectionDecides(c, s1, i, view, l);
    }
  }

  lemma StartsMayRun(c: Config, s: State, k: nat)
    requires Inv(c, s) && k < |s.starts|
    ensures Inv(c, s.(starts := Without(s.starts, k)))
  {
    var s1 := s.(starts := Without(s.starts, k));
    forall i | i in s.live
      ensures Awaits(c, s1, i)
    {
      StillAwaits(c, s, s1, i, None);
    }
  }

  lemma DropDecides(c: Config, s: State, k: nat, l: int)
    requires Decides(c, s, l) && Enabled(c, s, Drop(k))
    ensures Decides(c, Do(c, s, Drop(k)), l)
  {
    DropKeeps(c, s, k);
    var s' := Do(c, s, Drop(k));
    forall p
      ensures p in s.net <==> p == s.net[k] || p in s'.net
    {
      WithoutMember(s.net, k, p);
    }
    forall j | j in s.live && Learns(s, j, l)
      ensures Learns(s', j, l)
    {
    }
  }

  ghost predicate TakesOut(s: State, k: nat)
    requires k < |s.net|
  {
    forall q :: q in s.net <==> q == s.net[k] || q in Without(s.net, k)
  }

  lemma DeliverKeepsWon(c: Config, s: State, k: nat, l: int)
    requires Decides(c, s, l) && Enabled(c, s, Deliver(k)) && TakesOut(s, k) && Won(s, l)
    ensures Won(Do(c, s, Deliver(k)), l)
  {
    var s' := Do(c, s, Deliver(k));
    assert forall q :: q in Without(s.net, k) ==> q in s'.net;
    forall j | 0 <= j < |s'.nodes| && j in s'.live
      ensures Learns(s', j, l)
    {
      assert Learns(s, j, l);
    }
  }

  lemma DeliverKeepsCompeting(c: Config, s: State, k: nat, l: int)
    requires Decides(c, s, l) && Enabled(c, s, Deliver(k)) && TakesOut(s, k) && Competes(c, s, l) && Unopposed(s, l)
    ensures Competes(c, Do(c, s, Deliver(k)), l)
  {
    var s', p := Do(c, s, Deliver(k)), s.net[k];
    assert forall q :: q in Without(s.net, k) ==> q in s'.net;
    if p.to == l && p.msg.Election? && l < p.msg.candidate {
      assert s'.starts[|s'.starts| - 1] == l;
    }
  }

  lemma DeliverKeepsOrder(c: Config, s: State, k: nat, l: int)
    requires Decides(c, s, l) && Enabled(c, s, Deliver(k)) && TakesOut(s, k)
    ensures Lowest(Do(c, s, Deliver(k)), l) && Orderly(Do(c, s, Deliver(k)), l)
  {
  }

  lemma DeliverDecides(c: Config, s: State, k: nat, l: int)
    requires Decides(c, s, l) && Enabled(c, s, Deliver(k))
    ensures Decides(c, Do(c, s, Deliver(k)), l)
  {
    DeliverKeeps(c, s, k);
    forall q
      ensures q in s.net <==> q == s.net[k] || q in Without(s.net, k)
    {
      WithoutMember(s.net, k, q);
    }
    DeliverKeepsOrder(c, s, k, l);
    if Won(s, l) {
      DeliverKeepsWon(c, s, k, l);
    } else {
      DeliverKeepsCompeting(c, s, k, l);
    }
  }

  /** The configured master is rank 0: if it is alive it is the lowest live node, and its claim wins. */
  lemma ClaimDecides(c: Config, s: State, l: int)
    requires Inv(c, s) && Lowest(s, l) && Orderly(s, l) && Enabled(c, s, Claim)
    ensures Decides(c, Do(c, s, Claim), l)
  {
    ClaimKeeps(c, s);
    assert l == 0;
    AnnouncingWins(c, s, 0, OnCoordinator(s.nodes[0], 0));
  }

  lemma CrashDecides(c: Config, s: State, i: int, l: int)
    requires Decides(c, s, l) && Enabled(c, s, Crash(i)) && i != l
    ensures Decides(c, Do(c, s, Crash(i)), l)
  {
    OtherKeeps(c, s, Crash(i));
    var s' := Do(c, s, Crash(i));
    assert Won(s, l) ==> forall j :: j in s'.live ==> Learns(s, j, l) && Learns(s', j, l);
  }

  /** Everything but a crash of `l` itself keeps the decision for `l`. */
  lemma StepDecides(c: Config, s: State, step: Step, l: int)
    requires Decides(c, s, l) && Enabled(c, s, step) && step != Crash(l)
    ensures Decides(c, Do(c, s, step), l)
  {
    match step
    case Suspect(i, view) => ElectionDecides(c, s, i, view, l);
    case Claim => ClaimDecides(c, s, l);
    case RunStart(k, view) => RunStartDecides(c, s, k, view, l);
    case Deliver(k) => DeliverDecides(c, s, k, l);
    case Drop(k) => DropDecides(c, s, k, l);
    case Fire(i) => FireDecides(c, s, i, l);
    case Crash(i) => CrashDecides(c, s, i, l);
    case Tick(_) =>
      OtherKeeps(c, s, step);
      assert Won(s, l) ==> forall j :: j in s.live ==> Learns(s, j, l) && Learns(Do(c, s, step), j, l);
  }

  lemma {:induction false} RunDecides(c: Config, s: State, steps: seq<Step>, l: int)
    requires Decides(c, s, l) && Runs(c, s, steps) && Crash(l) !in steps
    ensures Decides(c, End(c, s, steps), l)
    decreases |steps|
  {
    if steps != [] {
      StepDecides(c, s, steps[0], l);
      RunDecides(c, Do(c, s, steps[0]), steps[1..], l);
    }
  }

  /** Every live node believes that `l` is master. */
  ghost predicate Agreed(s: State, l: int) {
    forall k :: 0 <= k < |s.nodes| && k in s.live ==> s.nodes[k].master == l
  }

  lemma QuietDecisionIsAgreement(c: Config, s: State, l: int)
    requires Decides(c, s, l) && Quiet(s)
    ensures Agreed(s, l)
  {
    assert Awaits(c, s, l);
    forall k | 0 <= k < |s.nodes| && k in s.live
      ensures s.nodes[k].master == l
    {
      assert Learns(s, k, l);
    }
  }

  /**
   Once the lowest live node competes or has won, and nobody else's announcement is about, every run in which it
   stays alive ends in agreement on it whenever it becomes quiet: suspicions, claims and other crashes included.
   */
  lemma QuietAgainMeansAgreement(c: Config, s: State, steps: seq<Step>, l: int)
    requires Decides(c, s, l) && Runs(c, s, steps) && Crash(l) !in steps
    requires Quiet(End(c, s, steps))
    ensures l in End(c, s, steps).live && Agreed(End(c, s, steps), l)
  {
    RunDecides(c, s, steps, l);
    QuietDecisionIsAgreement(c, End(c, s, steps), l);
  }

  // ---- Quiet starts ----------------------------------------------------------------------------------

  predicate AnySpontaneous(steps: seq<Step>) {
    exists k :: 0 <= k < |steps| && Spontaneous(steps[k])
  }

  lemma FirstSpontaneous(steps: seq<Step>)
    requires steps != []
    ensures AnySpontaneous(steps) <==> Spontaneous(steps[0]) || AnySpontaneous(steps[1..])
  {
    if AnySpontaneous(steps) {
      var k :| 0 <= k < |steps| && Spontaneous(steps[k]);
      assert k > 0 ==> steps[1..][k - 1] == steps[k];
    }
    if AnySpontaneous(steps[1..]) {
      var k :| 0 <= k < |steps[1..]| && Spontaneous(steps[1..][k]);
      assert steps[k + 1] == steps[1..][k];
    }
  }

  lemma SpontaneousStepDecides(c: Config, s: State, step: Step, l: int)
    requires Inv(c, s) && Quiet(s) && Lowest(s, l) && Enabled(c, s, step) && Spontaneous(step)
    ensures Decides(c, Do(c, s, step), l)
  {
    match step
    case Suspect(i, view) =>
      assert Awaits(c, s, i);
      ElectionDecides(c, s, i, view, l);
    case Claim => ClaimDecides(c, s, l);
  }

  lemma StillQuiet(c: Config, s: State, step: Step, l: int)
    requires Inv(c, s) && Quiet(s) && Lowest(s, l) && Enabled(c, s, step) && !Spontaneous(step) && step != Crash(l)
    ensures var s' := Do(c, s, step);
      Inv(c, s') && Quiet(s') && Lowest(s', l) && s'.nodes == s.nodes && s'.live <= s.live
  {
    assert step.Tick? || step.Crash?;
    OtherKeeps(c, s, step);
  }

  lemma {:induction false} RunFromQuiet(c: Config, s: State, steps: seq<Step>, l: int)
    requires Inv(c, s) && Quiet(s) && Lowest(s, l) && Runs(c, s, steps) && Crash(l) !in steps
    ensures var s' := End(c, s, steps);
      if AnySpontaneous(steps) then Decides(c, s', l) else s'.nodes == s.nodes && s'.live <= s.live
    decreases |steps|
  {
    if steps != [] {
      var s1 := Do(c, s, steps[0]);
      FirstSpontaneous(steps);
      if Spontaneous(steps[0]) {
        SpontaneousStepDecides(c, s, steps[0], l);
        RunDecides(c, s1, steps[1..], l);
      } else {
        StillQuiet(c, s, steps[0], l);
        RunFromQuiet(c, s1, steps[1..], l);
      }
    }
  }

  /**
   From a quiet cluster, in runs in which the lowest live node stays alive, a quiet end is agreement on it exactly
   if somebody suspected or claimed something, or the survivors agreed on it already.
   */
  lemma QuietClusterAgreesExactly(c: Config, s: State, steps: seq<Step>, l: int)
    requires Inv(c, s) && Quiet(s) && Lowest(s, l) && Runs(c, s, steps) && Crash(l) !in steps
    requires Quiet(End(c, s, steps))
    ensures var s' := End(c, s, steps);
      Agreed(s', l) <==> AnySpontaneous(steps) || Agreed(s.(live := s'.live), l)
  {
    RunFromQuiet(c, s, steps, l);
    if AnySpontaneous(steps) {
      QuietDecisionIsAgreement(c, End(c, s, steps), l);
    }
  }
}
