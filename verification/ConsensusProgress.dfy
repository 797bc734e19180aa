/**
 Which proposals can still be committed: exactly those that have, or can still collect, the votes of a majority.
 */
module ConsensusProgress {
  import opened ConsensusEngine
  import opened Consensus

  /** The vote of `n` for round `r` is counted, on its way, asked for or still to be asked for. */
  predicate CanCount(s: State, r: RoundId, n: Node)
    requires r in s.rounds
  {
    var rec := s.rounds[r];
    n == r.proposer || n in rec.voters || Unsent(rec.phase, n) || s.net[Propose(r, n)] > 0 || s.net[VoteYes(r, n)] > 0
  }

  function Support(s: State, r: RoundId): set<Node>
    requires r in s.rounds
  {
    set n | n in s.rounds[r].peers + {r.proposer} && CanCount(s, r, n)
  }

  /** The round has decided, or still has a majority to count on. */
  predicate Open(s: State, r: RoundId)
    requires r in s.rounds
  {
    var rec := s.rounds[r];
    InCommit(rec.phase) || ((rec.phase.Sending? || rec.phase.Waiting?) && |Support(s, r)| >= rec.tally.needed)
  }

  // ---- A lost majority stays lost ------------------------------------------------------------------

  lemma ProposerAddsNoSupport(c: Config, s: State, step: Step, r: RoundId, n: Node)
    requires Enabled(c, s, step) && ByProposer(step) && r in s.rounds && CountsOk(c, r, s.rounds[r])
    requires !CanCount(s, r, n)
    ensures r in Do(c, s, step).rounds && !CanCount(Do(c, s, step), r, n)
  {
  }

  lemma NetworkAddsNoSupport(c: Config, s: State, step: Step, r: RoundId, n: Node)
    requires Enabled(c, s, step) && !ByProposer(step) && r in s.rounds && !CanCount(s, r, n)
    ensures r in Do(c, s, step).rounds && !CanCount(Do(c, s, step), r, n)
  {
  }

  lemma NoNewSupport(c: Config, s: State, step: Step, r: RoundId, n: Node)
    requires Inv(c, s) && Enabled(c, s, step) && r in s.rounds && !CanCount(s, r, n)
    ensures r in Do(c, s, step).rounds && !CanCount(Do(c, s, step), r, n)
  {
    if ByProposer(step) {
      assert CountsOk(c, r, s.rounds[r]);
      ProposerAddsNoSupport(c, s, step, r, n);
    } else {
      NetworkAddsNoSupport(c, s, step, r, n);
    }
  }

  lemma VotersSupport(c: Config, s: State, r: RoundId)
    requires Inv(c, s) && r in s.rounds
    ensures s.rounds[r].tally.yes <= |Support(s, r)|
    ensures !InCommit(s.rounds[r].phase) && s.rounds[r].tally.done > 0 ==>
      s.rounds[r].tally.needed <= |Support(s, r)|
    ensures s.rounds[r].phase.Sending? ==> s.rounds[r].tally.yes + 1 <= |Support(s, r)|
  {
    var rec := s.rounds[r];
    assert CountsOk(c, r, rec);
    Subset(rec.voters, Support(s, r));
    if rec.phase.Sending? {
      Subset(rec.voters + {r.proposer}, Support(s, r));
    }
  }

  lemma SupportShrinks(c: Config, s: State, step: Step, r: RoundId)
    requires Inv(c, s) && Enabled(c, s, step) && r in s.rounds
    ensures r in Do(c, s, step).rounds && Do(c, s, step).rounds[r].peers == s.rounds[r].peers
    ensures |Support(Do(c, s, step), r)| <= |Support(s, r)|
  {
    var s' := Do(c, s, step);
    forall n | n in Support(s', r)
      ensures n in Support(s, r)
    {
      if !CanCount(s, r, n) {
        NoNewSupport(c, s, step, r, n);
      }
    }
    Subset(Support(s', r), Support(s, r));
  }

  lemma ClosedStep(c: Config, s: State, step: Step, r: RoundId)
    requires Inv(c, s) && Enabled(c, s, step) && r in s.rounds && !Open(s, r)
    ensures r in Do(c, s, step).rounds && !Open(Do(c, s, step), r)
  {
    SupportShrinks(c, s, step, r);
    VotersSupport(c, s, r);
  }

  lemma ClosedNext(c: Config, s: State, s': State, r: RoundId)
    requires Inv(c, s) && Next(c, s, s') && r in s.rounds && !Open(s, r)
    ensures Inv(c, s') && r in s'.rounds && !Open(s', r)
  {
    NextInv(c, s, s');
    var step :| Enabled(c, s, step) && s' == Do(c, s, step);
    ClosedStep(c, s, step, r);
  }

  lemma ClosedForever(c: Config, run: seq<State>, k: nat, j: nat, r: RoundId)
    requires k <= j < |run| && Inv(c, run[k]) && r in run[k].rounds && !Open(run[k], r)
    requires forall i :: k <= i < j ==> StepAt(c, run, i)
    ensures r in run[j].rounds && !Open(run[j], r)
  {
    for i := k to j
      invariant Inv(c, run[i]) && r in run[i].rounds && !Open(run[i], r)
    {
      assert StepAt(c, run, i);
      ClosedNext(c, run[i], run[i + 1], r);
    }
  }

  // ---- A majority to count on is enough ------------------------------------------------------------

  function Stage(p: Phase): nat {
    match p
    case Sending(_) => 3
    case Waiting => 2
    case Committing(_) => 1
    case _ => 0
  }

  function Asked(s: State, r: RoundId): set<Node>
    requires r in s.rounds
  {
    set n | n in s.rounds[r].peers && s.net[Propose(r, n)] > 0
  }

  function Answered(s: State, r: RoundId): set<Node>
    requires r in s.rounds
  {
    set n | n in s.rounds[r].peers && s.net[VoteYes(r, n)] > 0
  }

  /** The sends, answers and votes that are to come in a stage. */
  function ToCome(s: State, r: RoundId): nat
    requires r in s.rounds
  {
    match s.rounds[r].phase
    case Sending(left) => |left|
    case Waiting => 2 * |Asked(s, r)| + |Answered(s, r)|
    case Committing(left) => |left|
    case _ => 0
  }

  lemma RequestGoesOut(c: Config, s: State, r: RoundId, n: Node)
    requires Inv(c, s) && r in s.rounds && Open(s, r) && s.rounds[r].phase.Sending? && n in s.rounds[r].phase.left
    ensures Enabled(c, s, SendPropose(r, n))
    ensures var s' := Do(c, s, SendPropose(r, n));
      r in s'.rounds && Open(s', r) && s'.rounds[r].phase.Sending? && ToCome(s', r) < ToCome(s, r)
  {
    var s' := Do(c, s, SendPropose(r, n));
    assert s'.rounds[r].phase.left == s.rounds[r].phase.left - {n};
    assert Support(s', r) == Support(s, r);
  }

  lemma ProposerCounts(c: Config, s: State, r: RoundId)
    requires Inv(c, s) && r in s.rounds && Open(s, r) && s.rounds[r].phase == Sending({})
    ensures Enabled(c, s, SelfVote(r))
    ensures var s' := Do(c, s, SelfVote(r));
      r in s'.rounds && Open(s', r) && Stage(s'.rounds[r].phase) < Stage(s.rounds[r].phase)
  {
    var s' := Do(c, s, SelfVote(r));
    assert CountsOk(c, r, s.rounds[r]);
    assert Support(s', r) == Support(s, r);
  }

  lemma AnswerComes(c: Config, s: State, r: RoundId, n: Node)
    requires Inv(c, s) && r in s.rounds && Open(s, r) && s.rounds[r].phase.Waiting? && n in Asked(s, r)
    ensures Enabled(c, s, DeliverPropose(r, n))
    ensures var s' := Do(c, s, DeliverPropose(r, n));
      r in s'.rounds && Open(s', r) && s'.rounds[r].phase.Waiting? && ToCome(s', r) < ToCome(s, r)
  {
    var s' := Do(c, s, DeliverPropose(r, n));
    assert FlowOk(s, r, n);
    assert Asked(s', r) == Asked(s, r) - {n};
    assert Answered(s', r) == Answered(s, r) + {n};
    assert Support(s', r) == Support(s, r);
  }

  lemma VoteComes(c: Config, s: State, r: RoundId, n: Node)
    requires Inv(c, s) && r in s.rounds && Open(s, r) && s.rounds[r].phase.Waiting? && n in Answered(s, r)
    ensures Enabled(c, s, DeliverVote(r, n))
    ensures var s' := Do(c, s, DeliverVote(r, n));
      r in s'.rounds && Open(s', r) && s'.rounds[r].phase.Waiting? && ToCome(s', r) < ToCome(s, r)
  {
    var s' := Do(c, s, DeliverVote(r, n));
    assert FlowOk(s, r, n);
    assert Asked(s', r) == Asked(s, r);
    assert Answered(s', r) == Answered(s, r) - {n};
    assert Support(s', r) == Support(s, r);
  }

  /** With nothing to come the support is the votes counted, and their result is there to be taken. */
  lemma ResultIsThere(c: Config, s: State, r: RoundId)
    requires Inv(c, s) && r in s.rounds && Open(s, r) && s.rounds[r].phase.Waiting?
    requires Asked(s, r) == {} && Answered(s, r) == {}
    ensures Enabled(c, s, TakeResult(r)) && Do(c, s, TakeResult(r)).rounds[r].phase == Committing(s.rounds[r].peers)
  {
    var rec := s.rounds[r];
    assert CountsOk(c, r, rec);
    forall n | n in Support(s, r)
      ensures n in rec.voters
    {
      assert FlowOk(s, r, n);
      assert n in rec.peers ==> n !in Asked(s, r) && n !in Answered(s, r);
    }
    Subset(Support(s, r), rec.voters);
  }

  lemma Member<T>(s: set<T>) returns (x: T)
    requires s != {}
    ensures x in s
  {
    x :| x in s;
  }

  /** A step of an open round that brings its commit nearer. */
  ghost predicate Nearer(c: Config, s: State, step: Step, r: RoundId)
    requires r in s.rounds
  {
    Enabled(c, s, step) &&
      var s' := Do(c, s, step);
      r in s'.rounds && Open(s', r) &&
        (Stage(s'.rounds[r].phase) < Stage(s.rounds[r].phase) ||
          (Stage(s'.rounds[r].phase) == Stage(s.rounds[r].phase) && ToCome(s', r) < ToCome(s, r)))
  }

  lemma SendingGoesOn(c: Config, s: State, r: RoundId) returns (step: Step)
    requires Inv(c, s) && r in s.rounds && Open(s, r) && s.rounds[r].phase.Sending?
    ensures Nearer(c, s, step, r)
  {
    if s.rounds[r].phase.left != {} {
      var n := Member(s.rounds[r].phase.left);
      step := SendPropose(r, n);
      RequestGoesOut(c, s, r, n);
    } else {
      step := SelfVote(r);
      ProposerCounts(c, s, r);
    }
  }

  lemma WaitingGoesOn(c: Config, s: State, r: RoundId) returns (step: Step)
    requires Inv(c, s) && r in s.rounds && Open(s, r) && s.rounds[r].phase.Waiting?
    ensures Nearer(c, s, step, r)
  {
    if Asked(s, r) != {} {
      var n := Member(Asked(s, r));
      step := DeliverPropose(r, n);
      AnswerComes(c, s, r, n);
    } else if Answered(s, r) != {} {
      var n := Member(Answered(s, r));
      step := DeliverVote(r, n);
      VoteComes(c, s, r, n);
    } else {
      step := TakeResult(r);
      ResultIsThere(c, s, r);
    }
  }

  lemma CommittingGoesOn(c: Config, s: State, r: RoundId) returns (step: Step)
    requires Inv(c, s) && r in s.rounds && s.rounds[r].phase.Committing?
    ensures Nearer(c, s, step, r)
  {
    if s.rounds[r].phase.left != {} {
      var n := Member(s.rounds[r].phase.left);
      step := SendCommit(r, n);
      assert Do(c, s, step).rounds[r].phase.left == s.rounds[r].phase.left - {n};
    } else {
      step := Finish(r);
    }
  }

  lemma OpenGoesOn(c: Config, s: State, r: RoundId) returns (step: Step)
    requires Inv(c, s) && r in s.rounds && Open(s, r) && !s.rounds[r].phase.Committed?
    ensures Nearer(c, s, step, r)
  {
    match s.rounds[r].phase
    case Sending(_) => step := SendingGoesOn(c, s, r);
    case Waiting => step := WaitingGoesOn(c, s, r);
    case Committing(_) => step := CommittingGoesOn(c, s, r);
  }

  ghost predicate EndsIn(c: Config, run: seq<State>, s: State) {
    Behaviour(c, run) && run[|run| - 1] == s && Inv(c, s)
  }

  /** `run` can be continued to `s`. */
  ghost predicate Leads(c: Config, run: seq<State>, s: State) {
    exists longer :: run <= longer && EndsIn(c, longer, s)
  }

  lemma OneMoreStep(c: Config, run: seq<State>, s: State, step: Step)
    requires EndsIn(c, run, s) && Enabled(c, s, step)
    ensures EndsIn(c, run + [Do(c, s, step)], Do(c, s, step))
  {
    var longer := run + [Do(c, s, step)];
    assert Next(c, s, Do(c, s, step));
    NextInv(c, s, Do(c, s, step));
    forall i | 0 <= i < |longer| - 1
      ensures StepAt(c, longer, i)
    {
      if i < |run| - 1 {
        assert StepAt(c, run, i);
      }
    }
  }

  lemma AfterStep(c: Config, run: seq<State>, s: State, step: Step)
    requires Leads(c, run, s) && Enabled(c, s, step)
    ensures Leads(c, run, Do(c, s, step)) && Inv(c, Do(c, s, step))
  {
    var longer :| run <= longer && EndsIn(c, longer, s);
    OneMoreStep(c, longer, s, step);
  }

  lemma {:induction false} Commits(c: Config, run: seq<State>, s: State, r: RoundId) returns (s': State)
    requires Leads(c, run, s) && Inv(c, s) && r in s.rounds && Open(s, r)
    ensures Leads(c, run, s') && r in s'.rounds && s'.rounds[r].phase.Committed?
    decreases Stage(s.rounds[r].phase), ToCome(s, r)
  {
    if s.rounds[r].phase.Committed? {
      s' := s;
    } else {
      var step := OpenGoesOn(c, s, r);
      AfterStep(c, run, s, step);
      s' := Commits(c, run, Do(c, s, step), r);
    }
  }

  /** `longer` continues `run` to a state in which round `r` is committed at its proposer. */
  ghost predicate CommitsOver(c: Config, run: seq<State>, longer: seq<State>, r: RoundId) {
    && Behaviour(c, longer) && run <= longer
    && r in longer[|longer| - 1].rounds && longer[|longer| - 1].rounds[r].phase.Committed?
  }

  /**
   In every reachable state, for every round: some continuation commits it exactly if it has decided, or has neither
   failed nor lost so many proposals and votes that no majority is left to count on.
   */
  lemma CommittableIffOpen(c: Config, run: seq<State>, r: RoundId)
    requires Behaviour(c, run) && r in run[|run| - 1].rounds
    ensures Open(run[|run| - 1], r) <==> exists longer :: CommitsOver(c, run, longer, r)
  {
    var s := run[|run| - 1];
    ReachableInv(c, run, |run| - 1);
    if Open(s, r) {
      assert EndsIn(c, run, s);
      var s' := Commits(c, run, s, r);
      var longer :| run <= longer && EndsIn(c, longer, s');
      assert CommitsOver(c, run, longer, r);
    } else {
      forall longer | Behaviour(c, longer) && run <= longer
        ensures !CommitsOver(c, run, longer, r)
      {
        assert longer[|run| - 1] == s;
        ClosedForever(c, longer, |run| - 1, |longer| - 1, r);
      }
    }
  }
}
