/**
 The failure detector (internal/heartbeat/heartbeat.go): a counter of missed pings per peer, a peer declared
 dead at the third miss in a row and once only until it is heard of again.
 */
module Heartbeat {
  import opened NodeState

  const MAX_MISSED: nat := 3

  /** How one ping round of a peer ends. */
  datatype Outcome = Pong | Missed

  /** What a death declaration leads to. */
  datatype Action = Nothing | StartElection | Redistribute(dead: int) | TellMaster(master: int, dead: int)

  // ---- What the detector ought to know, read off the history --------------------------------------------

  /** The number of misses since the last pong. */
  function TrailingMisses(h: seq<Outcome>): nat {
    if h == [] || h[|h| - 1].Pong? then 0 else 1 + TrailingMisses(h[..|h| - 1])
  }

  /** A maximal run of misses that is at least MAX_MISSED long starts at `i`. */
  ghost predicate LongRunAt(h: seq<Outcome>, i: int) {
    && 0 <= i && i + MAX_MISSED <= |h|
    && (i > 0 ==> h[i - 1].Pong?)
    && forall k :: i <= k < i + MAX_MISSED ==> h[k].Missed?
  }

  ghost function LongRuns(h: seq<Outcome>): set<int> {
    set i | 0 <= i < |h| && LongRunAt(h, i)
  }

  lemma {:induction false} TrailingAreMisses(h: seq<Outcome>)
    ensures TrailingMisses(h) <= |h|
    ensures forall k :: |h| - TrailingMisses(h) <= k < |h| ==> h[k].Missed?
    ensures TrailingMisses(h) < |h| ==> h[|h| - TrailingMisses(h) - 1].Pong?
  {
    if h != [] && h[|h| - 1].Missed? {
      TrailingAreMisses(h[..|h| - 1]);
    }
  }

  lemma {:induction false} TrailingAtLeast(h: seq<Outcome>, n: nat)
    requires n <= |h|
    ensures (forall k :: |h| - n <= k < |h| ==> h[k].Missed?) ==> n <= TrailingMisses(h)
  {
    if n > 0 {
      assert h[|h| - 1].Missed? || h[|h| - 1].Pong?;
      TrailingAtLeast(h[..|h| - 1], n - 1);
    }
  }

  /** A long run comes to light with the miss that makes it MAX_MISSED long, and with nothing else. */
  lemma LongRunAppears(h: seq<Outcome>, o: Outcome)
    ensures var h' := h + [o];
      LongRuns(h') == LongRuns(h) + if TrailingMisses(h') == MAX_MISSED then {|h'| - MAX_MISSED} else {}
    ensures |h| + 1 - MAX_MISSED !in LongRuns(h)
  {
    var h' := h + [o];
    TrailingAreMisses(h');
    forall i
      ensures i in LongRuns(h') <==> i in LongRuns(h) || (TrailingMisses(h') == MAX_MISSED && i == |h'| - MAX_MISSED)
    {
      if i + MAX_MISSED <= |h| {
        assert forall k :: 0 <= k < |h| ==> h'[k] == h[k];
        assert LongRunAt(h', i) <==> LongRunAt(h, i);
      } else if i + MAX_MISSED == |h'| && i >= 0 {
        TrailingAtLeast(h', MAX_MISSED);
        assert TrailingMisses(h') > MAX_MISSED ==> h'[i - 1].Missed?;
      }
    }
  }

  // ---- What the detector knows ----------------------------------------------------------------------------

  /** The counter of a peer, whether it counts as alive, and how often it was declared dead. */
  datatype Peer = Peer(missed: nat, alive: bool, deaths: nat)

  const UNHEARD := Peer(0, true, 0)

  /** One ping round: a pong resets, the third miss and later ones declare a peer dead that still counts as alive. */
  function OnOutcome(x: Peer, o: Outcome): Peer {
    if o.Pong? then Peer(0, true, x.deaths)
    else if x.missed + 1 >= MAX_MISSED && x.alive then Peer(x.missed + 1, false, x.deaths + 1)
    else x.(missed := x.missed + 1)
  }

  function Detect(h: seq<Outcome>): Peer {
    if h == [] then UNHEARD else OnOutcome(Detect(h[..|h| - 1]), h[|h| - 1])
  }

  ghost predicate Exact(x: Peer, h: seq<Outcome>) {
    x == Peer(TrailingMisses(h), TrailingMisses(h) < MAX_MISSED, |LongRuns(h)|)
  }

  lemma OutcomeKeepsExact(x: Peer, h: seq<Outcome>, o: Outcome)
    requires Exact(x, h)
    ensures Exact(OnOutcome(x, o), h + [o])
  {
    assert (h + [o])[..|h|] == h;
    LongRunAppears(h, o);
  }

  /**
   After any history the counter is the number of trailing misses, the peer counts as alive exactly while
   that is under three, and it was declared dead once for each maximal run of three or more misses.
   */
  lemma {:induction false} DetectorEqualsHistory(h: seq<Outcome>)
    ensures Detect(h) == Peer(TrailingMisses(h), TrailingMisses(h) < 3, |LongRuns(h)|)
  {
    if h == [] {
      assert LongRuns(h) == {};
    } else {
      DetectorEqualsHistory(h[..|h| - 1]);
      OutcomeKeepsExact(Detect(h[..|h| - 1]), h[..|h| - 1], h[|h| - 1]);
      assert h == h[..|h| - 1] + [h[|h| - 1]];
    }
  }

  // ---- The monitor of one node ---------------------------------------------------------------------------

  class Monitor {
    const state: Membership
    var missed: map<int, nat>
    var inFlight: set<int>
    ghost var deaths: map<int, nat>

    ghost function Value(p: int): Peer
      reads this, state
    {
      Peer(if p in missed then missed[p] else 0, p in state.Alive(), if p in deaths then deaths[p] else 0)
    }

    constructor (state: Membership)
      ensures this.state == state && inFlight == {}
      ensures forall p :: p in state.Alive() ==> Value(p) == UNHEARD
    {
      this.state := state;
      missed, inFlight, deaths := map[], {}, map[];
    }

    /** The first critical section of pingOne: at most one ping of a peer is in flight. */
    method BeginPing(p: int) returns (started: bool)
      modifies this`inFlight
      ensures started <==> p !in old(inFlight)
      ensures inFlight == old(inFlight) + {p}
    {
      if p in inFlight {
        return false;
      }
      inFlight := inFlight + {p};
      started := true;
    }

    /** The rest of pingOne for peer `p` once its outcome is known; it acts exactly when it declares a death. */
    method EndPing(p: int, o: Outcome) returns (action: Action)
      modifies this, state`alive
      ensures Value(p) == OnOutcome(old(Value(p)), o) && inFlight == old(inFlight) - {p}
      ensures forall q :: q != p ==> Value(q) == old(Value(q))
      ensures state.Alive() ==
        if o.Pong? then old(state.Alive()) + {p}
        else if old(Value(p)).missed + 1 >= 3 then old(state.Alive()) - {p}
        else old(state.Alive())
      ensures action ==
        if o.Pong? || old(Value(p)).missed + 1 < 3 || p !in old(state.Alive()) then Nothing
        else if p == state.masterID then StartElection
        else if state.masterID == state.self then Redistribute(p)
        else if state.masterID in state.all then TellMaster(state.masterID, p)
        else Nothing
    {
      action := Nothing;
      if o.Pong? {
        missed := missed[p := 0];
        state.MarkAlive(p);
      } else {
        var m := (if p in missed then missed[p] else 0) + 1;
        missed := missed[p := m];
        if m >= MAX_MISSED {
          action := DeclareDead(p);
        }
      }
      inFlight := inFlight - {p};
    }

    /** declareDead acts once per death; a master that is not configured is told nothing. */
    method DeclareDead(p: int) returns (action: Action)
      modifies this`deaths, state`alive
      ensures state.Alive() == old(state.Alive()) - {p}
      ensures action ==
        if p !in old(state.Alive()) then Nothing
        else if p == state.masterID then StartElection
        else if state.masterID == state.self then Redistribute(p)
        else if state.masterID in state.all then TellMaster(state.masterID, p)
        else Nothing
      ensures deaths == if p in old(state.Alive()) then old(deaths)[p := old(Value(p)).deaths + 1] else old(deaths)
    {
      var alive := state.IsAlive(p);
      if !alive {
        return Nothing;
      }
      state.MarkDead(p);
      deaths := deaths[p := (if p in deaths then deaths[p] else 0) + 1];
      if p == state.masterID {
        return StartElection;
      }
      var master := state.IsMaster();
      if master {
        return Redistribute(p);
      }
      var known := state.MasterIsKnown();
      return if known then TellMaster(state.masterID, p) else Nothing;
    }
  }
}
