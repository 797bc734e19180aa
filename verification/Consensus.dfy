/**
 Majority commit across the cluster (internal/consensus/consensus.go): PROPOSE to the peers believed
 alive, count votes as they come, also before the self-vote, then COMMIT.  Messages are reordered and lost
 and delivered at most once; a proposer may time out or be cancelled while it waits.
 */
module Consensus {
  import opened ConsensusEngine

  datatype Config = Config(all: set<Node>)

  /** `Committing(left)` has the peers still to be sent COMMIT; the last two phases have left the rounds map. */
  datatype Phase = Sending(left: set<Node>) | Waiting | Committing(left: set<Node>) | Committed | Failed

  /** `voters` and `commits` are history: whose votes were counted, and how often doCommit was entered. */
  datatype Rec = Rec(peers: set<Node>, phase: Phase, tally: Tally, voters: set<Node>, commits: nat)

  datatype Msg = Propose(id: RoundId, to: Node) | VoteYes(id: RoundId, from: Node) | Commit(id: RoundId, to: Node)

  /** `voted` and `sent` are history: the yes votes ever given, and every message ever sent. */
  datatype State = State(
    rounds: map<RoundId, Rec>,
    net: multiset<Msg>,
    voted: set<(Node, RoundId)>,
    sent: multiset<Msg>)

  datatype Step =
    | Begin(id: RoundId, peers: set<Node>)
    | SendPropose(id: RoundId, to: Node)
    | SelfVote(id: RoundId)
    | TakeResult(id: RoundId)
    | GiveUp(id: RoundId)
    | SendCommit(id: RoundId, to: Node)
    | Finish(id: RoundId)
    | DeliverPropose(id: RoundId, to: Node)
    | DeliverVote(id: RoundId, from: Node)
    | DeliverCommit(id: RoundId, to: Node)  // what it does to the tables is in Tables.dfy
    | Lose(msg: Msg)

  predicate Registered(p: Phase) { p.Sending? || p.Waiting? || p.Committing? }

  predicate Enabled(c: Config, s: State, step: Step) {
    match step
    case Begin(r, peers) => r !in s.rounds && r.proposer in c.all && peers <= c.all - {r.proposer}
    case SendPropose(r, n) => r in s.rounds && s.rounds[r].phase.Sending? && n in s.rounds[r].phase.left
    case SelfVote(r) => r in s.rounds && s.rounds[r].phase == Sending({})
    case TakeResult(r) => r in s.rounds && s.rounds[r].phase.Waiting? && s.rounds[r].tally.done > 0
    case GiveUp(r) => r in s.rounds && s.rounds[r].phase.Waiting?
    case SendCommit(r, n) => r in s.rounds && s.rounds[r].phase.Committing? && n in s.rounds[r].phase.left
    case Finish(r) => r in s.rounds && s.rounds[r].phase == Committing({})
    case DeliverPropose(r, n) => Propose(r, n) in s.net
    case DeliverVote(r, n) => VoteYes(r, n) in s.net
    case DeliverCommit(r, n) => Commit(r, n) in s.net
    case Lose(m) => m in s.net
  }

  function StartCommit(rec: Rec): Rec {
    rec.(phase := Committing(rec.peers), commits := rec.commits + 1)
  }

  /** propose after its broadcast: the self-vote commits at once or leaves the proposer waiting. */
  function AfterSelfVote(r: RoundId, rec: Rec): Rec {
    var t := rec.tally.(yes := rec.tally.yes + 1);
    var rec' := rec.(tally := t, voters := rec.voters + {r.proposer});
    if t.yes >= t.needed then StartCommit(rec') else rec'.(phase := Waiting)
  }

  function AfterVote(rec: Rec, from: Node): Rec {
    rec.(tally := CountVote(rec.tally, true), voters := rec.voters + {from})
  }

  function Send(s: State, m: Msg): State {
    s.(net := s.net + multiset{m}, sent := s.sent + multiset{m})
  }

  function SetRound(s: State, r: RoundId, rec: Rec): State {
    s.(rounds := s.rounds[r := rec])
  }

  function Do(c: Config, s: State, step: Step): State
    requires Enabled(c, s, step)
  {
    match step
    case Begin(r, peers) =>
      s.(rounds := s.rounds[r := Rec(peers, Sending(peers), Tally(Quorum(|c.all|), 0, 0, 0), {}, 0)])
    case SendPropose(r, n) =>
      SetRound(Send(s, Propose(r, n)), r, s.rounds[r].(phase := Sending(s.rounds[r].phase.left - {n})))
    case SelfVote(r) => s.(rounds := s.rounds[r := AfterSelfVote(r, s.rounds[r])])
    case TakeResult(r) =>
      var rec := s.rounds[r];
      s.(rounds := s.rounds[r := StartCommit(rec.(tally := rec.tally.(done := rec.tally.done - 1)))])
    case GiveUp(r) => s.(rounds := s.rounds[r := s.rounds[r].(phase := Failed)])
    case SendCommit(r, n) =>
      SetRound(Send(s, Commit(r, n)), r, s.rounds[r].(phase := Committing(s.rounds[r].phase.left - {n})))
    case Finish(r) => s.(rounds := s.rounds[r := s.rounds[r].(phase := Committed)])
    case DeliverPropose(r, n) =>
      Send(s.(net := s.net - multiset{Propose(r, n)}, voted := s.voted + {(n, r)}), VoteYes(r, n))
    case DeliverVote(r, n) =>
      var s' := s.(net := s.net - multiset{VoteYes(r, n)});
      if r in s.rounds && Registered(s.rounds[r].phase) then
        s'.(rounds := s.rounds[r := AfterVote(s.rounds[r], n)])
      else s'
    case DeliverCommit(r, n) => s.(net := s.net - multiset{Commit(r, n)})
    case Lose(m) => s.(net := s.net - multiset{m})
  }

  ghost predicate Init(s: State) { s == State(map[], multiset{}, {}, multiset{}) }

  ghost predicate Next(c: Config, s: State, s': State) {
    exists step :: Enabled(c, s, step) && s' == Do(c, s, step)
  }

  ghost predicate StepAt(c: Config, run: seq<State>, i: nat)
    requires i + 1 < |run|
  {
    Next(c, run[i], run[i + 1])
  }

  ghost predicate Behaviour(c: Config, run: seq<State>) {
    run != [] && Init(run[0]) && forall i :: 0 <= i < |run| - 1 ==> StepAt(c, run, i)
  }

  // ---- The inductive invariant --------------------------------------------------------------------

  predicate InCommit(p: Phase) { p.Committing? || p.Committed? }

  /** The counters of a round against its history. */
  ghost predicate CountsOk(c: Config, r: RoundId, rec: Rec) {
    var t := rec.tally;
    && r.proposer in c.all && rec.peers <= c.all - {r.proposer}
    && t.needed == Quorum(|c.all|)
    && t.yes == |rec.voters|
    && (r.proposer in rec.voters <==> !rec.phase.Sending?)
    && rec.voters <= rec.peers + {r.proposer}
    && (rec.phase.Sending? || rec.phase.Committing? ==> rec.phase.left <= rec.peers)
    && t.done <= 1
    && (t.done == 1 ==> t.yes >= t.needed)
    && (rec.phase.Waiting? && t.yes >= t.needed ==> t.done == 1)
    && (InCommit(rec.phase) ==> t.yes >= t.needed)
    && rec.commits == (if InCommit(rec.phase) then 1 else 0)
  }

  predicate Unsent(p: Phase, n: Node) { p.Sending? && n in p.left }

  /** One peer's part in one round: it is asked, answers and is counted at most once, in this order. */
  ghost predicate FlowOk(s: State, r: RoundId, n: Node) {
    && (r !in s.rounds ==> s.net[Propose(r, n)] == s.net[VoteYes(r, n)] == s.net[Commit(r, n)] == 0)
    && (r in s.rounds ==>
      var rec := s.rounds[r];
      && (if Unsent(rec.phase, n) then 1 else 0) + s.net[Propose(r, n)] + s.net[VoteYes(r, n)]
        + (if n in rec.voters then 1 else 0) <= 1
      && (s.net[Propose(r, n)] + s.net[VoteYes(r, n)] > 0 ==> n in rec.peers)
      && (s.net[VoteYes(r, n)] > 0 || (n in rec.voters && n != r.proposer) ==> (n, r) in s.voted)
      && (s.net[Commit(r, n)] > 0 ==> InCommit(rec.phase)))
  }

  function One(b: bool): nat { if b then 1 else 0 }

  /**
   What was ever sent to one peer in one round: PROPOSE once, unless that is still to be done, then one vote for it at
   most; COMMIT once in a decided round, unless that is still to be done, and never in another.
   */
  ghost predicate SentOk(s: State, r: RoundId, n: Node) {
    && (r !in s.rounds ==> s.sent[Propose(r, n)] == s.sent[VoteYes(r, n)] == s.sent[Commit(r, n)] == 0)
    && (r in s.rounds ==>
      var rec := s.rounds[r];
      && s.sent[Propose(r, n)] + One(Unsent(rec.phase, n)) == One(n in rec.peers)
      && s.sent[VoteYes(r, n)] + s.net[Propose(r, n)] <= s.sent[Propose(r, n)]
      && s.net[VoteYes(r, n)] + One(n in rec.voters && n != r.proposer) <= s.sent[VoteYes(r, n)]
      && s.net[Commit(r, n)] <= s.sent[Commit(r, n)]
      && s.sent[Commit(r, n)] + One(rec.phase.Committing? && n in rec.phase.left)
        == One(InCommit(rec.phase) && n in rec.peers))
  }

  ghost predicate Inv(c: Config, s: State) {
    && (forall r :: r in s.rounds ==> CountsOk(c, r, s.rounds[r]))
    && (forall r, n :: FlowOk(s, r, n))
    && (forall r, n :: SentOk(s, r, n))
  }

  predicate ByProposer(step: Step) {
    step.Begin? || step.SendPropose? || step.SelfVote? || step.TakeResult? || step.GiveUp? || step.SendCommit?
    || step.Finish?
  }

  lemma ProposerKeepsFlow(c: Config, s: State, step: Step, r: RoundId, n: Node)
    requires Enabled(c, s, step) && ByProposer(step)
    requires FlowOk(s, r, n) && (r in s.rounds ==> CountsOk(c, r, s.rounds[r]))
    ensures FlowOk(Do(c, s, step), r, n)
  {
  }

  lemma ProposeKeepsFlow(c: Config, s: State, step: Step, r: RoundId, n: Node)
    requires Enabled(c, s, step) && step.DeliverPropose? && FlowOk(s, r, n)
    ensures FlowOk(Do(c, s, step), r, n)
  {
  }

  lemma VoteKeepsFlow(c: Config, s: State, step: Step, r: RoundId, n: Node)
    requires Enabled(c, s, step) && step.DeliverVote? && FlowOk(s, r, n)
    ensures FlowOk(Do(c, s, step), r, n)
  {
  }

  lemma LossKeepsFlow(c: Config, s: State, step: Step, r: RoundId, n: Node)
    requires Enabled(c, s, step) && (step.DeliverCommit? || step.Lose?) && FlowOk(s, r, n)
    ensures FlowOk(Do(c, s, step), r, n)
  {
  }

  lemma SendKeepsSent(c: Config, s: State, step: Step, r: RoundId, n: Node)
    requires Enabled(c, s, step) && (step.SendPropose? || step.SendCommit?)
    requires SentOk(s, r, n) && (r in s.rounds ==> CountsOk(c, r, s.rounds[r]))
    ensures SentOk(Do(c, s, step), r, n)
  {
  }

  lemma PhaseKeepsSent(c: Config, s: State, step: Step, r: RoundId, n: Node)
    requires Enabled(c, s, step) && ByProposer(step) && !step.SendPropose? && !step.SendCommit? && FlowOk(s, r, n)
    requires SentOk(s, r, n) && (r in s.rounds ==> CountsOk(c, r, s.rounds[r]))
    ensures SentOk(Do(c, s, step), r, n)
  {
  }

  lemma AnswerKeepsSent(c: Config, s: State, step: Step, r: RoundId, n: Node)
    requires Enabled(c, s, step) && step.DeliverPropose? && FlowOk(s, r, n) && SentOk(s, r, n)
    ensures SentOk(Do(c, s, step), r, n)
  {
  }

  lemma VoteKeepsSent(c: Config, s: State, step: Step, r: RoundId, n: Node)
    requires Enabled(c, s, step) && step.DeliverVote? && FlowOk(s, r, n) && SentOk(s, r, n)
    ensures SentOk(Do(c, s, step), r, n)
  {
  }

  lemma LossKeepsSent(c: Config, s: State, step: Step, r: RoundId, n: Node)
    requires Enabled(c, s, step) && (step.DeliverCommit? || step.Lose?) && SentOk(s, r, n)
    ensures SentOk(Do(c, s, step), r, n)
  {
  }

  predicate Deciding(step: Step) { step.SelfVote? || step.TakeResult? || step.GiveUp? }

  lemma DecidingKeepsCounts(c: Config, s: State, step: Step, r: RoundId)
    requires Enabled(c, s, step) && Deciding(step) && r in s.rounds && CountsOk(c, r, s.rounds[r])
    ensures r in Do(c, s, step).rounds && CountsOk(c, r, Do(c, s, step).rounds[r])
  {
    match step
    case SelfVote(_) =>
    case TakeResult(_) =>
    case GiveUp(_) =>
  }

  lemma SendingKeepsCounts(c: Config, s: State, step: Step, r: RoundId)
    requires Enabled(c, s, step) && ByProposer(step) && !Deciding(step)
    requires r in Do(c, s, step).rounds && (r in s.rounds ==> CountsOk(c, r, s.rounds[r]))
    ensures CountsOk(c, r, Do(c, s, step).rounds[r])
  {
    match step
    case Begin(_, _) =>
    case SendPropose(_, _) =>
    case SendCommit(_, _) =>
    case Finish(_) =>
  }

  lemma ProposerKeepsCounts(c: Config, s: State, step: Step, r: RoundId)
    requires Enabled(c, s, step) && ByProposer(step)
    requires r in Do(c, s, step).rounds && (r in s.rounds ==> CountsOk(c, r, s.rounds[r]))
    ensures CountsOk(c, r, Do(c, s, step).rounds[r])
  {
    if Deciding(step) {
      DecidingKeepsCounts(c, s, step, r);
    } else {
      SendingKeepsCounts(c, s, step, r);
    }
  }

  lemma VoteKeepsCounts(c: Config, s: State, step: Step, r: RoundId)
    requires Enabled(c, s, step) && !ByProposer(step) && r in s.rounds && CountsOk(c, r, s.rounds[r])
    requires step.DeliverVote? ==> FlowOk(s, r, step.from)
    ensures CountsOk(c, r, Do(c, s, step).rounds[r])
  {
  }

  lemma NextInv(c: Config, s: State, s': State)
    requires Inv(c, s) && Next(c, s, s')
    ensures Inv(c, s')
  {
    var step :| Enabled(c, s, step) && s' == Do(c, s, step);
    forall r | r in s'.rounds
      ensures CountsOk(c, r, s'.rounds[r])
    {
      assert step.DeliverVote? ==> FlowOk(s, r, step.from);
      if ByProposer(step) {
        ProposerKeepsCounts(c, s, step, r);
      } else {
        VoteKeepsCounts(c, s, step, r);
      }
    }
    forall r, n
      ensures FlowOk(s', r, n)
    {
      assert FlowOk(s, r, n);
      if ByProposer(step) {
        ProposerKeepsFlow(c, s, step, r, n);
      } else if step.DeliverPropose? {
        ProposeKeepsFlow(c, s, step, r, n);
      } else if step.DeliverVote? {
        VoteKeepsFlow(c, s, step, r, n);
      } else {
        LossKeepsFlow(c, s, step, r, n);
      }
    }
    forall r, n
      ensures SentOk(s', r, n)
    {
      assert FlowOk(s, r, n) && SentOk(s, r, n);
      if step.SendPropose? || step.SendCommit? {
        SendKeepsSent(c, s, step, r, n);
      } else if ByProposer(step) {
        PhaseKeepsSent(c, s, step, r, n);
      } else if step.DeliverPropose? {
        AnswerKeepsSent(c, s, step, r, n);
      } else if step.DeliverVote? {
        VoteKeepsSent(c, s, step, r, n);
      } else {
        LossKeepsSent(c, s, step, r, n);
      }
    }
  }

  lemma {:induction false} ReachableInv(c: Config, run: seq<State>, k: nat)
    requires Behaviour(c, run) && k < |run|
    ensures Inv(c, run[k])
  {
    if k > 0 {
      ReachableInv(c, run, k - 1);
      assert StepAt(c, run, k - 1);
      NextInv(c, run[k - 1], run[k]);
    }
  }

  // ---- What the invariant is for ------------------------------------------------------------------

  predicate Decided(s: State, r: RoundId) { r in s.rounds && InCommit(s.rounds[r].phase) }

  /** A COMMIT on the network means that strictly more than half of all nodes voted yes for that very round. */
  lemma CommitHasMajority(c: Config, run: seq<State>, k: nat, r: RoundId, to: Node)
    requires Behaviour(c, run) && k < |run| && Commit(r, to) in run[k].net
    ensures Decided(run[k], r)
    ensures var voters := run[k].rounds[r].voters; voters <= c.all && 2 * |voters| > |c.all|
    ensures forall n :: n in run[k].rounds[r].voters ==> n == r.proposer || (n, r) in run[k].voted
  {
    ReachableInv(c, run, k);
    assert FlowOk(run[k], r, to);
    DecidedMajority(c, run[k], r);
  }

  lemma DecidedMajority(c: Config, s: State, r: RoundId)
    requires Inv(c, s) && Decided(s, r)
    ensures s.rounds[r].voters <= s.rounds[r].peers + {r.proposer} <= c.all && 2 * |s.rounds[r].voters| > |c.all|
    ensures forall n :: n in s.rounds[r].voters ==> n == r.proposer || (n, r) in s.voted
  {
    assert CountsOk(c, r, s.rounds[r]);
    forall n | n in s.rounds[r].voters
      ensures n == r.proposer || (n, r) in s.voted
    {
      assert FlowOk(s, r, n);
    }
  }

  /** `yes` is the self-vote plus the distinct peers whose vote for this round was consumed. */
  lemma YesCountsDistinctVoters(c: Config, run: seq<State>, k: nat, r: RoundId)
    requires Behaviour(c, run) && k < |run| && r in run[k].rounds
    ensures var rec := run[k].rounds[r];
      rec.tally.yes == |rec.voters - {r.proposer}| + (if rec.phase.Sending? then 0 else 1)
  {
    ReachableInv(c, run, k);
    var rec := run[k].rounds[r];
    assert CountsOk(c, r, rec);
    if r.proposer in rec.voters {
      assert rec.voters == (rec.voters - {r.proposer}) + {r.proposer};
    } else {
      assert rec.voters - {r.proposer} == rec.voters;
    }
  }

  /** No lost wakeup: a proposer that waits with the threshold met has a result to take, and exactly one. */
  lemma NoLostWakeup(c: Config, run: seq<State>, k: nat, r: RoundId)
    requires Behaviour(c, run) && k < |run| && r in run[k].rounds && run[k].rounds[r].phase.Waiting?
    ensures Enabled(c, run[k], TakeResult(r)) <==> run[k].rounds[r].tally.yes >= run[k].rounds[r].tally.needed
    ensures run[k].rounds[r].tally.done <= 1
  {
    ReachableInv(c, run, k);
    assert CountsOk(c, r, run[k].rounds[r]);
  }

  /** doCommit is entered at most once a round, and exactly in the rounds that decided. */
  lemma CommitsOnce(c: Config, run: seq<State>, k: nat, r: RoundId)
    requires Behaviour(c, run) && k < |run| && r in run[k].rounds
    ensures run[k].rounds[r].commits == if Decided(run[k], r) then 1 else 0
  {
    ReachableInv(c, run, k);
    assert CountsOk(c, r, run[k].rounds[r]);
  }

  /**
   doCommit tells every peer of the round: each was sent COMMIT exactly once when the round is committed, and up to
   then is still to be sent it; nobody else is, and nobody in a round that has not decided.
   */
  lemma EveryPeerIsTold(c: Config, run: seq<State>, k: nat, r: RoundId, n: Node)
    requires Behaviour(c, run) && k < |run| && r in run[k].rounds
    ensures var (rec, told) := (run[k].rounds[r], run[k].sent[Commit(r, n)]);
      && told <= 1 && (told == 1 ==> n in rec.peers && Decided(run[k], r))
      && (n in rec.peers && rec.phase.Committed? ==> told == 1)
      && (n in rec.peers && rec.phase.Committing? ==> (told == 1 <==> n !in rec.phase.left))
  {
    ReachableInv(c, run, k);
    assert SentOk(run[k], r, n) && CountsOk(c, r, run[k].rounds[r]);
  }

  /** Every peer is asked exactly once before the proposer counts itself, and votes at most once. */
  lemma EveryPeerIsAsked(c: Config, run: seq<State>, k: nat, r: RoundId, n: Node)
    requires Behaviour(c, run) && k < |run| && r in run[k].rounds
    ensures var (rec, asked) := (run[k].rounds[r], run[k].sent[Propose(r, n)]);
      && asked <= 1 && (asked == 1 ==> n in rec.peers) && run[k].sent[VoteYes(r, n)] <= asked
      && (n in rec.peers && !rec.phase.Sending? ==> asked == 1)
      && (n in rec.voters && n != r.proposer ==> run[k].sent[VoteYes(r, n)] == 1)
  {
    ReachableInv(c, run, k);
    assert SentOk(run[k], r, n);
  }

  lemma Majorities(all: set<Node>, a: set<Node>, b: set<Node>)
    requires a <= all && b <= all && 2 * |a| > |all| && 2 * |b| > |all|
    ensures a * b != {}
  {
    if a * b == {} {
      assert |a + b| == |a| + |b|;
      Subset(a + b, all);
    }
  }

  lemma {:induction false} Subset(a: set<Node>, b: set<Node>)
    requires a <= b
    ensures |a| <= |b|
  {
    assert b == a + (b - a);
  }

  /** Any two decided rounds, whoever proposed them and whom they believed alive, share a voter. */
  lemma QuorumsIntersect(c: Config, run: seq<State>, k: nat, r: RoundId, q: RoundId)
    requires Behaviour(c, run) && k < |run| && Decided(run[k], r) && Decided(run[k], q)
    ensures run[k].rounds[r].voters * run[k].rounds[q].voters != {}
  {
    ReachableInv(c, run, k);
    DecidedMajority(c, run[k], r);
    DecidedMajority(c, run[k], q);
    Majorities(c.all, run[k].rounds[r].voters, run[k].rounds[q].voters);
  }

  /** Two groups without a common node never both commit. */
  lemma PartitionsExclude(c: Config, run: seq<State>, k: nat, r: RoundId, q: RoundId)
    requires Behaviour(c, run) && k < |run| && Decided(run[k], r) && q in run[k].rounds
    requires (run[k].rounds[r].peers + {r.proposer}) !! (run[k].rounds[q].peers + {q.proposer})
    ensures !Decided(run[k], q)
  {
    ReachableInv(c, run, k);
    assert CountsOk(c, r, run[k].rounds[r]) && CountsOk(c, q, run[k].rounds[q]);
    if Decided(run[k], q) {
      QuorumsIntersect(c, run, k, r, q);
    }
  }

  /** A proposer that believes fewer than a majority alive cannot commit. */
  lemma MinorityViewNeverCommits(c: Config, run: seq<State>, k: nat, r: RoundId)
    requires Behaviour(c, run) && k < |run| && r in run[k].rounds
    requires 2 * (|run[k].rounds[r].peers| + 1) <= |c.all|
    ensures !Decided(run[k], r)
  {
    ReachableInv(c, run, k);
    if Decided(run[k], r) {
      DecidedMajority(c, run[k], r);
      Subset(run[k].rounds[r].voters, run[k].rounds[r].peers + {r.proposer});
    }
  }

  lemma FailedStep(c: Config, s: State, step: Step, r: RoundId)
    requires Enabled(c, s, step) && r in s.rounds && s.rounds[r].phase.Failed?
    ensures r in Do(c, s, step).rounds && Do(c, s, step).rounds[r] == s.rounds[r]
  {
  }

  lemma FailedNext(c: Config, s: State, s': State, r: RoundId)
    requires Next(c, s, s') && r in s.rounds && s.rounds[r].phase.Failed?
    ensures r in s'.rounds && s'.rounds[r] == s.rounds[r]
  {
    var step :| Enabled(c, s, step) && s' == Do(c, s, step);
    FailedStep(c, s, step, r);
  }

  /** Votes that come after the timeout count for nothing: a failed attempt's record never changes again. */
  lemma {:induction false} FailedForGood(c: Config, run: seq<State>, k: nat, j: nat, r: RoundId)
    requires Behaviour(c, run) && k <= j < |run| && r in run[k].rounds && run[k].rounds[r].phase.Failed?
    ensures r in run[j].rounds && run[j].rounds[r] == run[k].rounds[r]
    decreases j
  {
    if j > k {
      FailedForGood(c, run, k, j - 1, r);
      assert StepAt(c, run, j - 1);
      FailedNext(c, run[j - 1], run[j], r);
    }
  }

  /** A proposer that times out or is cancelled has not committed its round and never will. */
  lemma GivenUpNeverCommits(c: Config, run: seq<State>, i: nat, k: nat, r: RoundId, n: Node)
    requires Behaviour(c, run) && i < k < |run|
    requires Enabled(c, run[i], GiveUp(r)) && run[i + 1] == Do(c, run[i], GiveUp(r))
    ensures r in run[k].rounds && run[k].rounds[r].commits == 0 && run[k].sent[Commit(r, n)] == 0
    ensures !Enabled(c, run[k], TakeResult(r))
  {
    FailedForGood(c, run, i + 1, k, r);
    EveryPeerIsTold(c, run, k, r, n);
    CommitsOnce(c, run, k, r);
  }

  /** A vote counts exactly while its round is in the map: also before the self-vote and while COMMIT is sent. */
  lemma VoteIsCounted(c: Config, run: seq<State>, k: nat, r: RoundId, n: Node)
    requires Behaviour(c, run) && k < |run| && r in run[k].rounds && VoteYes(r, n) in run[k].net
    ensures var (rec, rec') := (run[k].rounds[r], Do(c, run[k], DeliverVote(r, n)).rounds[r]);
      if rec.phase.Committed? || rec.phase.Failed? then rec' == rec
      else rec'.voters == rec.voters + {n} && n !in rec.voters && rec'.tally.yes == rec.tally.yes + 1
  {
    ReachableInv(c, run, k);
    assert FlowOk(run[k], r, n);
  }
}
