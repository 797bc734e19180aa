/**
 Elections in a whole cluster, with crashes and bounded message delay.

 Nodes are named by rank 0..n-1 in the order of their ids; the protocol only compares ids.  A message
 reaches a live node within `delay`, reply included at most 2 * `delay` < `okTimeout` after the request;
 crashed nodes stay down and no live node is ever suspected.  Time passes in `Tick` steps only.
 */
module Election {
  import opened Options
  import opened ElectionEngine
  import opened NodeState

  datatype Config = Config(n: nat, delay: nat, okTimeout: nat) {
    predicate Valid() { n > 0 && 2 * delay < okTimeout }
  }

  datatype Packet = Packet(from: int, to: int, msg: Msg, deadline: int)

  /** `starts` are the spawned `go StartElection()` calls that have not run yet. */
  datatype State = State(now: int, nodes: seq<Elector>, live: set<int>, net: seq<Packet>, starts: seq<int>)

  datatype Step =
    | Suspect(i: int, view: set<int>)   // the failure detector starts an election
    | Claim                              // the configured master announces itself
    | RunStart(k: nat, view: set<int>)
    | Deliver(k: nat)
    | Drop(k: nat)                       // a message to a crashed node
    | Fire(i: int)
    | Tick(d: nat)
    | Crash(i: int)

  function Ranks(n: nat): (all: seq<int>)
    ensures |all| == n && forall i :: 0 <= i < n ==> all[i] == i
  {
    seq(n, i => i)
  }

  function Peers(c: Config, i: int): seq<int> { PeersOf(Ranks(c.n), i) }

  function Lower(c: Config, i: int, view: set<int>): seq<int> { LowerOf(AliveOf(Peers(c, i), view), i) }

  function Without<T>(s: seq<T>, k: nat): seq<T>
    requires k < |s|
  {
    s[..k] + s[k + 1..]
  }

  function Packets(c: Config, s: State, from: int, sends: seq<Send>): (ps: seq<Packet>)
    ensures |ps| == |sends|
    ensures forall k :: 0 <= k < |ps| ==> ps[k] == Packet(from, sends[k].to, sends[k].msg, s.now + c.delay)
  {
    seq(|sends|, k requires 0 <= k < |sends| => Packet(from, sends[k].to, sends[k].msg, s.now + c.delay))
  }

  ghost predicate WellFormed(c: Config, s: State) {
    c.Valid() && |s.nodes| == c.n && forall i :: i in s.live ==> 0 <= i < c.n
  }

  ghost predicate Init(c: Config, s: State) {
    s == State(0, seq(c.n, i => Elector(false, None, 0)), set i | i in Ranks(c.n), [], [])
  }

  predicate Enabled(c: Config, s: State, step: Step)
    requires |s.nodes| == c.n && forall i :: i in s.live ==> 0 <= i < c.n
  {
    match step
    case Suspect(i, view) => i in s.live && s.live <= view
    case Claim => 0 in s.live
    case RunStart(k, view) => k < |s.starts| && s.live <= view
    case Deliver(k) => k < |s.net| && s.net[k].to in s.live
    case Drop(k) => k < |s.net| && s.net[k].to !in s.live
    case Fire(i) => i in s.live && s.nodes[i].timer.Some? && s.nodes[i].timer.value <= s.now
    case Tick(d) => forall p :: p in s.net && p.to in s.live ==> s.now + d <= p.deadline
    case Crash(i) => i in s.live
  }

  /** Node `i` becomes `r.0` and sends `r.1`. */
  function Act(c: Config, s: State, i: int, r: (Elector, seq<Send>)): State
    requires 0 <= i < |s.nodes|
  {
    s.(nodes := s.nodes[i := r.0], net := s.net + Packets(c, s, i, r.1))
  }

  function RunElection(c: Config, s: State, i: int, view: set<int>): State
    requires 0 <= i < |s.nodes|
  {
    Act(c, s, i, Start(s.nodes[i], i, Peers(c, i), Lower(c, i, view), s.now + c.okTimeout))
  }

  function Receive(c: Config, s: State, p: Packet): State
    requires 0 <= p.to < |s.nodes|
  {
    match p.msg
    case Election(candidate) =>
      var (sends, start) := OnElection(p.to, candidate, p.from);
      Act(c, s, p.to, (s.nodes[p.to], sends)).(starts := if start then s.starts + [p.to] else s.starts)
    case OK => Act(c, s, p.to, (OnOK(s.nodes[p.to]), []))
    case Coordinator(master) => Act(c, s, p.to, (OnCoordinator(s.nodes[p.to], master), []))
  }

  function Do(c: Config, s: State, step: Step): State
    requires |s.nodes| == c.n && (forall i :: i in s.live ==> 0 <= i < c.n) && Enabled(c, s, step)
  {
    match step
    case Suspect(i, view) => RunElection(c, s, i, view)
    case Claim => Act(c, s, 0, (OnCoordinator(s.nodes[0], 0), SendAll(Peers(c, 0), Coordinator(0))))
    case RunStart(k, view) =>
      var s' := s.(starts := Without(s.starts, k));
      if s.starts[k] in s.live then RunElection(c, s', s.starts[k], view) else s'
    case Deliver(k) => Receive(c, s.(net := Without(s.net, k)), s.net[k])
    case Drop(k) => s.(net := Without(s.net, k))
    case Fire(i) => Act(c, s, i, OnTimer(s.nodes[i], i, Peers(c, i)))
    case Tick(d) => s.(now := s.now + d)
    case Crash(i) => s.(live := s.live - {i})
  }

  ghost predicate Next(c: Config, s: State, s': State) {
    WellFormed(c, s) && exists step :: Enabled(c, s, step) && s' == Do(c, s, step)
  }

  ghost predicate StepAt(c: Config, run: seq<State>, i: nat)
    requires i + 1 < |run|
  {
    Next(c, run[i], run[i + 1])
  }

  ghost predicate Behaviour(c: Config, run: seq<State>) {
    c.Valid() && run != [] && Init(c, run[0]) && forall i :: 0 <= i < |run| - 1 ==> StepAt(c, run, i)
  }

  // ---- The inductive invariant --------------------------------------------------------------------

  /** No id above the lowest live one is believed or announced to be master. */
  ghost predicate NotAbove(s: State, m: int) {
    forall l :: l in s.live ==> m <= l
  }

  ghost predicate MastersLow(c: Config, s: State)
    requires WellFormed(c, s)
  {
    && (forall i :: i in s.live ==> NotAbove(s, s.nodes[i].master))
    && (forall p :: p in s.net && p.msg.Coordinator? ==> NotAbove(s, p.msg.master))
  }

  ghost predicate InTime(s: State) {
    forall p :: p in s.net && p.to in s.live ==> s.now <= p.deadline
  }

  /** `p` is the request of `i` to `j` or the answer to it, and is due before a timer expiring at `expiry`. */
  predicate Covers(c: Config, p: Packet, i: int, j: int, expiry: int) {
    || (p.from == i && p.to == j && p.msg == Election(i) && p.deadline <= expiry - c.okTimeout + c.delay)
    || (p.from == j && p.to == i && p.msg == OK && p.deadline <= expiry - c.okTimeout + 2 * c.delay)
  }

  ghost predicate Covered(c: Config, s: State, i: int, j: int, expiry: int) {
    exists p :: p in s.net && Covers(c, p, i, j, expiry)
  }

  /** A running election awaits an answer, on its way in time, of every live node of higher priority. */
  ghost predicate Awaits(c: Config, s: State, i: int)
    requires 0 <= i < |s.nodes|
  {
    s.nodes[i].running ==>
      s.nodes[i].timer.Some? && forall j :: j in s.live && j < i ==> Covered(c, s, i, j, s.nodes[i].timer.value)
  }

  ghost predicate Inv(c: Config, s: State) {
    && WellFormed(c, s)
    && MastersLow(c, s)
    && InTime(s)
    && (forall i :: i in s.live ==> Awaits(c, s, i))
  }

  lemma WithoutMember<T>(s: seq<T>, k: nat, x: T)
    requires k < |s|
    ensures x in s <==> x == s[k] || x in Without(s, k)
  {
    assert s == s[..k] + [s[k]] + s[k + 1..];
  }

  lemma LowerNodes(c: Config, i: int, view: set<int>, j: int)
    requires 0 <= i < c.n
    ensures j in Lower(c, i, view) <==> 0 <= j < i && j in view
  {
    PeersExact(Ranks(c.n), i);
    AliveExact(Peers(c, i), view);
    LowerExact(AliveOf(Peers(c, i), view), i);
    assert j in Ranks(c.n) <==> 0 <= j < c.n by {
      if 0 <= j < c.n { assert Ranks(c.n)[j] == j; }
    }
  }

  /** The answer that covers `j` is due before the expiry: if the timer fires while running, none is awaited. */
  lemma NobodyLowerIsAlive(c: Config, s: State, i: int)
    requires Inv(c, s) && Enabled(c, s, Fire(i)) && s.nodes[i].running
    ensures NotAbove(s, i)
  {
    assert Awaits(c, s, i);
    forall j | j in s.live
      ensures i <= j
    {
      assert j < i ==> Covered(c, s, i, j, s.nodes[i].timer.value);
    }
  }

  /** A node that nothing happened to still awaits its answers if what `gone` covered is covered again. */
  lemma StillAwaits(c: Config, s: State, s': State, i: int, gone: Option<Packet>)
    requires WellFormed(c, s) && WellFormed(c, s') && i in s.live && Awaits(c, s, i) && s'.live == s.live
    requires s'.nodes[i].running ==> s'.nodes[i].running == s.nodes[i].running && s'.nodes[i].timer == s.nodes[i].timer
    requires forall p :: p in s.net ==> p in s'.net || gone == Some(p)
    requires gone.Some? && s'.nodes[i].running && s.nodes[i].timer.Some? ==>
      var x := s.nodes[i].timer.value;
      forall j :: j in s.live && j < i && Covers(c, gone.value, i, j, x) ==> Covered(c, s', i, j, x)
    ensures Awaits(c, s', i)
  {
    if s'.nodes[i].running {
      var x := s.nodes[i].timer.value;
      forall j | j in s.live && j < i
        ensures Covered(c, s', i, j, x)
      {
        assert Covered(c, s, i, j, x);
        var p :| p in s.net && Covers(c, p, i, j, x);
      }
    }
  }

  /** What `r.1` announces, when node `i` acts, is a master below every live node. */
  lemma ActMasters(c: Config, s: State, i: int, r: (Elector, seq<Send>))
    requires Inv(c, s) && 0 <= i < c.n && NotAbove(s, r.0.master)
    requires forall k :: 0 <= k < |r.1| && r.1[k].msg.Coordinator? ==> NotAbove(s, r.1[k].msg.master)
    ensures WellFormed(c, Act(c, s, i, r)) && MastersLow(c, Act(c, s, i, r)) && InTime(Act(c, s, i, r))
    ensures forall m :: NotAbove(s, m) ==> NotAbove(Act(c, s, i, r), m)
  {
  }

  lemma ElectionKeeps(c: Config, s: State, i: int, view: set<int>)
    requires Inv(c, s) && i in s.live && s.live <= view
    ensures Inv(c, RunElection(c, s, i, view))
  {
    var lower := Lower(c, i, view);
    forall j | j in s.live && j < i
      ensures j in lower
    {
      LowerNodes(c, i, view, j);
    }
    assert lower == [] ==> NotAbove(s, i);
    assert NotAbove(s, s.nodes[i].master);
    var r := Start(s.nodes[i], i, Peers(c, i), lower, s.now + c.okTimeout);
    ActMasters(c, s, i, r);
    var s' := Act(c, s, i, r);
    forall k | k in s'.live
      ensures Awaits(c, s', k)
    {
      if k != i || s.nodes[i].running {
        StillAwaits(c, s, s', k, None);
      } else if r.0.running {
        AsksEverybodyLower(c, s, i, lower);
      }
    }
  }

  /** A fresh request to every live node of higher priority covers it. */
  lemma AsksEverybodyLower(c: Config, s: State, i: int, lower: seq<int>)
    requires WellFormed(c, s) && 0 <= i < c.n && !s.nodes[i].running && lower != []
    requires forall j :: j in s.live && j < i ==> j in lower
    ensures Awaits(c, Act(c, s, i, Start(s.nodes[i], i, Peers(c, i), lower, s.now + c.okTimeout)), i)
  {
    var r := Start(s.nodes[i], i, Peers(c, i), lower, s.now + c.okTimeout);
    var s' := Act(c, s, i, r);
    forall j | j in s.live && j < i
      ensures Covered(c, s', i, j, s.now + c.okTimeout)
    {
      var k :| 0 <= k < |lower| && lower[k] == j;
      var p := Packets(c, s, i, r.1)[k];
      assert p in s'.net && Covers(c, p, i, j, s.now + c.okTimeout);
    }
  }

  lemma FireKeeps(c: Config, s: State, i: int)
    requires Inv(c, s) && Enabled(c, s, Fire(i))
    ensures Inv(c, Do(c, s, Fire(i)))
  {
    var r := OnTimer(s.nodes[i], i, Peers(c, i));
    if s.nodes[i].running {
      NobodyLowerIsAlive(c, s, i);
    }
    assert NotAbove(s, s.nodes[i].master);
    ActMasters(c, s, i, r);
    forall k | k in s.live
      ensures Awaits(c, Act(c, s, i, r), k)
    {
      if k != i {
        StillAwaits(c, s, Act(c, s, i, r), k, None);
      }
    }
  }

  lemma DropKeeps(c: Config, s: State, k: nat)
    requires Inv(c, s) && Enabled(c, s, Drop(k))
    ensures Inv(c, Do(c, s, Drop(k)))
  {
    var s' := Do(c, s, Drop(k));
    forall p
      ensures p in s.net <==> p == s.net[k] || p in s'.net
    {
      WithoutMember(s.net, k, p);
    }
    forall i | i in s.live
      ensures Awaits(c, s', i)
    {
      StillAwaits(c, s, s', i, Some(s.net[k]));
    }
  }

  lemma DeliverKeeps(c: Config, s: State, k: nat)
    requires Inv(c, s) && Enabled(c, s, Deliver(k))
    ensures Inv(c, Do(c, s, Deliver(k)))
  {
    var s', p := Do(c, s, Deliver(k)), s.net[k];
    forall q
      ensures q in s.net <==> q == p || q in Without(s.net, k)
    {
      WithoutMember(s.net, k, q);
    }
    assert NotAbove(s, s.nodes[p.to].master);
    forall i | i in s.live
      ensures Awaits(c, s', i)
    {
      DeliverAwaits(c, s, k, i);
    }
  }

  lemma DeliverAwaits(c: Config, s: State, k: nat, i: int)
    requires Inv(c, s) && Enabled(c, s, Deliver(k)) && i in s.live
    requires forall q :: q in s.net <==> q == s.net[k] || q in Without(s.net, k)
    ensures Awaits(c, Do(c, s, Deliver(k)), i)
  {
    var s', p := Do(c, s, Deliver(k)), s.net[k];
    assert Awaits(c, s, i);
    if p.msg.Election? && p.to < p.msg.candidate {
      var reply := Packet(p.to, p.from, OK, s.now + c.delay);
      assert s'.net[|s'.net| - 1] == reply && s.now <= p.deadline;
      assert forall j, x :: j < i && Covers(c, p, i, j, x) ==> Covers(c, reply, i, j, x);
    }
    StillAwaits(c, s, s', i, Some(p));
  }

  lemma OtherKeeps(c: Config, s: State, step: Step)
    requires Inv(c, s) && Enabled(c, s, step) && (step.Tick? || step.Crash?)
    ensures Inv(c, Do(c, s, step))
  {
    var s' := Do(c, s, step);
    forall i | i in s'.live
      ensures Awaits(c, s', i)
    {
      assert Awaits(c, s, i);
    }
  }

  lemma ClaimKeeps(c: Config, s: State)
    requires Inv(c, s) && Enabled(c, s, Claim)
    ensures Inv(c, Do(c, s, Claim))
  {
    var s' := Do(c, s, Claim);
    ActMasters(c, s, 0, (OnCoordinator(s.nodes[0], 0), SendAll(Peers(c, 0), Coordinator(0))));
    forall i | i in s.live
      ensures Awaits(c, s', i)
    {
      StillAwaits(c, s, s', i, None);
    }
  }

  lemma RunStartKeeps(c: Config, s: State, k: nat, view: set<int>)
    requires Inv(c, s) && Enabled(c, s, RunStart(k, view))
    ensures Inv(c, Do(c, s, RunStart(k, view)))
  {
    var s1 := s.(starts := Without(s.starts, k));
    forall i | i in s.live
      ensures Awaits(c, s1, i)
    {
      StillAwaits(c, s, s1, i, None);
    }
    if s.starts[k] in s.live {
      ElectionKeeps(c, s1, s.starts[k], view);
    }
  }

  lemma StepInv(c: Config, s: State, step: Step)
    requires Inv(c, s) && Enabled(c, s, step)
    ensures Inv(c, Do(c, s, step))
  {
    match step
    case Suspect(i, view) => ElectionKeeps(c, s, i, view);
    case Claim => ClaimKeeps(c, s);
    case RunStart(k, view) => RunStartKeeps(c, s, k, view);
    case Deliver(k) => DeliverKeeps(c, s, k);
    case Drop(k) => DropKeeps(c, s, k);
    case Fire(i) => FireKeeps(c, s, i);
    case Tick(_) => OtherKeeps(c, s, step);
    case Crash(_) => OtherKeeps(c, s, step);
  }

  lemma NextInv(c: Config, s: State, s': State)
    requires Inv(c, s) && Next(c, s, s')
    ensures Inv(c, s')
  {
    var step :| Enabled(c, s, step) && s' == Do(c, s, step);
    StepInv(c, s, step);
  }

  lemma {:induction false} ReachableInv(c: Config, run: seq<State>, k: nat)
    requires Behaviour(c, run) && k < |run|
    ensures Inv(c, run[k])
  {
    if k > 0 {
      ReachableInv(c, run, k - 1);
      assert StepAt(c, run, k - 1);
      NextInv(c, run[k - 1], run[k]);
    }
  }

  /** No id above the lowest live one is believed, or on its way to being believed, master. */
  lemma MasterNeverAboveLowestLive(c: Config, run: seq<State>, k: nat, l: int)
    requires Behaviour(c, run) && k < |run| && l in run[k].live
    ensures forall i :: i in run[k].live ==> 0 <= i < |run[k].nodes| && run[k].nodes[i].master <= l
    ensures forall p :: p in run[k].net && p.msg.Coordinator? ==> p.msg.master <= l
  {
    ReachableInv(c, run, k);
    assert forall i :: i in run[k].live ==> NotAbove(run[k], run[k].nodes[i].master);
  }

  /** No split brain: one live node at most is master, and beliefs in a live master agree. */
  lemma NoSplitBrain(c: Config, run: seq<State>, k: nat, i: int, j: int)
    requires Behaviour(c, run) && k < |run| && i in run[k].live && j in run[k].live
    ensures WellFormed(c, run[k])
    ensures run[k].nodes[i].master == i && run[k].nodes[j].master == j ==> i == j
    ensures run[k].nodes[i].master in run[k].live && run[k].nodes[j].master in run[k].live ==>
      run[k].nodes[i].master == run[k].nodes[j].master
  {
    ReachableInv(c, run, k);
    var s := run[k];
    assert NotAbove(s, s.nodes[i].master) && NotAbove(s, s.nodes[j].master);
  }

  /** A timer that expires while its election runs expires at the live node of highest priority. */
  lemma TimerFiresAtLowestLive(c: Config, run: seq<State>, k: nat, i: int, j: int)
    requires Behaviour(c, run) && k < |run| && j in run[k].live
    requires WellFormed(c, run[k]) && Enabled(c, run[k], Fire(i)) && run[k].nodes[i].running
    ensures i <= j
  {
    ReachableInv(c, run, k);
    NobodyLowerIsAlive(c, run[k], i);
  }
}
