/**
 The round bookkeeping of one node (internal/consensus/consensus.go).  `Tally` is what a round's counters
 and its result channel hold; the object's methods are the critical sections of propose and HandleVote.
 */
module ConsensusEngine {
  type Node = int

  /** A round id.  The source draws a UUID. */
  datatype RoundId = RoundId(proposer: Node, serial: nat)

  /** `done` is the number of results buffered in the round's channel of capacity one. */
  datatype Tally = Tally(needed: nat, yes: nat, no: nat, done: nat)

  /** More than half of all configured nodes, alive or not. */
  function Quorum(total: nat): (needed: nat)
    ensures 2 * needed > total && 2 * (needed - 1) <= total && needed >= 1
  {
    total / 2 + 1
  }

  /** HandleVote on a known round: count, then signal without blocking if the threshold is met. */
  function CountVote(t: Tally, yes: bool): Tally {
    var t' := if yes then t.(yes := t.yes + 1) else t.(no := t.no + 1);
    if t'.yes >= t'.needed && t'.done == 0 then t'.(done := 1) else t'
  }

  class Round {
    const needed: nat
    var yes: nat
    var no: nat
    var done: nat

    ghost function Value(): Tally
      reads this
    {
      Tally(needed, yes, no, done)
    }

    constructor (needed: nat)
      ensures Value() == Tally(needed, 0, 0, 0)
    {
      this.needed := needed;
      yes, no, done := 0, 0, 0;
    }
  }

  class Engine {
    var rounds: map<RoundId, Round>

    ghost predicate Valid()
      reads this
    {
      forall r, q :: r in rounds && q in rounds && r != q ==> rounds[r] != rounds[q]
    }

    constructor ()
      ensures Valid() && rounds == map[]
    {
      rounds := map[];
    }

    /** The start of propose: register a round that needs a majority of all configured nodes. */
    method Begin(id: RoundId, total: nat) returns (r: Round)
      requires Valid() && forall q :: q in rounds ==> allocated(rounds[q])
      modifies this
      ensures Valid() && fresh(r) && rounds == old(rounds)[id := r]
      ensures r.Value() == Tally(Quorum(total), 0, 0, 0) && 2 * r.needed > total && 2 * (r.needed - 1) <= total
    {
      var needed := total / 2 + 1;
      if needed < 1 {
        needed := 1;
      }
      r := new Round(needed);
      rounds := rounds[id := r];
    }

    /** The proposer's own vote, and whether it already completes the majority. */
    method VoteForSelf(r: Round) returns (committed: bool)
      modifies r
      ensures r.Value() == old(r.Value()).(yes := old(r.yes) + 1)
      ensures committed <==> r.yes >= r.needed
    {
      r.yes := r.yes + 1;
      committed := r.yes >= r.needed;
    }

    /** The deferred deletion when propose returns. */
    method Forget(id: RoundId)
      requires Valid()
      modifies this
      ensures Valid() && rounds == old(rounds) - {id}
    {
      rounds := rounds - {id};
    }

    method HandleVote(id: RoundId, yes: bool)
      requires Valid()
      modifies rounds.Values
      ensures forall q :: q in rounds ==>
        rounds[q].Value() == if q == id then CountVote(old(rounds[q].Value()), yes) else old(rounds[q].Value())
      ensures id in rounds ==>
        var r := rounds[id];
        && r.yes == old(rounds[id].yes) + (if yes then 1 else 0)
        && r.no == old(rounds[id].no) + (if yes then 0 else 1)
        && (r.done >= 1 <==> old(rounds[id].done) >= 1 || r.yes >= r.needed)
        && (old(rounds[id].done) >= 1 ==> r.done == old(rounds[id].done))
        && (old(rounds[id].done) == 0 ==> r.done <= 1)
    {
      if id !in rounds {
        return;
      }
      var r := rounds[id];
      assert r in rounds.Values;
      if yes {
        r.yes := r.yes + 1;
      } else {
        r.no := r.no + 1;
      }
      if r.yes >= r.needed && r.done < 1 {
        r.done := r.done + 1;
      }
    }
  }
}
