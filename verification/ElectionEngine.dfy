/**
 The reverse-bully election engine of one node (internal/election/election.go): a lower id has the higher
 priority.  `Elector` is what the handlers change, `Start`, `OnTimer`, `OnOK`, `OnElection` and
 `OnCoordinator` say how; Election.dfy runs the electors of a whole cluster against each other.
 */
module ElectionEngine {
  import opened Options
  import opened NodeState

  /** `timer` is the moment an armed okTimer expires; a stopped timer is None. */
  datatype Elector = Elector(running: bool, timer: Option<int>, master: int)

  datatype Msg = Election(candidate: int) | OK | Coordinator(master: int)

  datatype Send = Send(to: int, msg: Msg)

  function SendAll(to: seq<int>, msg: Msg): (sends: seq<Send>)
    ensures |sends| == |to| && forall i :: 0 <= i < |to| ==> sends[i] == Send(to[i], msg)
  {
    seq(|to|, i requires 0 <= i < |to| => Send(to[i], msg))
  }

  lemma SentExactly(to: seq<int>, msg: Msg)
    ensures forall s :: s in SendAll(to, msg) <==> s.msg == msg && s.to in to
  {
    var sends := SendAll(to, msg);
    forall s: Send | s.msg == msg && s.to in to
      ensures s in sends
    {
      var i :| 0 <= i < |to| && to[i] == s.to;
      assert sends[i] == s;
    }
  }

  /** declareVictory: become master and tell every configured peer. */
  function Victory(self: int, peers: seq<int>): (Elector, seq<Send>) {
    (Elector(false, None, self), SendAll(peers, Coordinator(self)))
  }

  /** StartElection as one step; `lower` are the nodes of higher priority believed alive. */
  function Start(e: Elector, self: int, peers: seq<int>, lower: seq<int>, expiry: int): (Elector, seq<Send>) {
    if e.running then (e, [])
    else if lower == [] then Victory(self, peers)
    else (e.(running := true, timer := Some(expiry)), SendAll(lower, Election(self)))
  }

  /** The callback of okTimer. */
  function OnTimer(e: Elector, self: int, peers: seq<int>): (Elector, seq<Send>) {
    if !e.running then (e.(timer := None), []) else Victory(self, peers)
  }

  function OnOK(e: Elector): Elector {
    e.(running := false, timer := None)
  }

  /** The replies to an ELECTION, and whether this node starts an election of its own. */
  function OnElection(self: int, candidate: int, from: int): (seq<Send>, bool) {
    if self >= candidate then ([], false) else ([Send(from, OK)], true)
  }

  function OnCoordinator(e: Elector, master: int): Elector {
    e.(master := master)
  }

  class Engine {
    const state: Membership
    var running: bool
    var okTimer: Option<int>

    ghost function Value(): Elector
      reads this, state
    {
      Elector(running, okTimer, state.masterID)
    }

    constructor (state: Membership)
      ensures this.state == state && Value() == Elector(false, None, state.masterID)
    {
      this.state := state;
      running, okTimer := false, None;
    }

    /** COORDINATOR with this node's id goes to every other configured node. */
    ghost predicate Announces(sends: seq<Send>) {
      forall s :: s in sends <==> s.msg == Coordinator(state.self) && s.to in state.all && s.to != state.self
    }

    /** ELECTION with this node's id goes to every node of higher priority that is believed alive. */
    ghost predicate Challenges(sends: seq<Send>)
      reads state
    {
      forall s :: s in sends <==>
        s.msg == Election(state.self) && s.to in state.all && s.to in state.Alive() && s.to < state.self
    }

    /** A node of higher priority is configured and believed alive. */
    ghost predicate Outranked()
      reads state
    {
      exists n :: n in state.all && n in state.Alive() && n < state.self
    }

    lemma AnnouncesAll()
      ensures Announces(SendAll(PeersOf(state.all, state.self), Coordinator(state.self)))
    {
      PeersExact(state.all, state.self);
      SentExactly(PeersOf(state.all, state.self), Coordinator(state.self));
    }

    lemma LowerAre(lower: seq<int>)
      requires lower == LowerOf(AliveOf(PeersOf(state.all, state.self), state.Alive()), state.self)
      ensures Challenges(SendAll(lower, Election(state.self)))
      ensures lower == [] <==> !Outranked()
    {
      var alive := AliveOf(PeersOf(state.all, state.self), state.Alive());
      PeersExact(state.all, state.self);
      AliveExact(PeersOf(state.all, state.self), state.Alive());
      LowerExact(alive, state.self);
      SentExactly(lower, Election(state.self));
      if lower != [] {
        assert lower[0] in lower;
      }
    }

    method LowerNodes() returns (out: seq<int>)
      ensures out == LowerOf(AliveOf(PeersOf(state.all, state.self), state.Alive()), state.self)
    {
      var peers := state.AlivePeers();
      out := [];
      for i := 0 to |peers|
        invariant out == LowerOf(peers[..i], state.self)
      {
        assert peers[..i + 1][..i] == peers[..i];
        if peers[i] < state.self {
          out := out + [peers[i]];
        }
      }
      assert peers[..|peers|] == peers;
    }

    method Broadcast(to: seq<int>, msg: Msg) returns (sends: seq<Send>)
      ensures sends == SendAll(to, msg)
    {
      sends := [];
      for i := 0 to |to|
        invariant sends == SendAll(to[..i], msg)
      {
        sends := sends + [Send(to[i], msg)];
      }
      assert to[..|to|] == to;
    }

    method StartElection(now: int, okTimeout: int) returns (sends: seq<Send>)
      modifies this, state`masterID
      ensures state.alive == old(state.alive)
      ensures (Value(), sends) ==
        Start(old(Value()), state.self, PeersOf(state.all, state.self),
              LowerOf(AliveOf(PeersOf(state.all, state.self), state.Alive()), state.self), now + okTimeout)
      ensures old(running) ==>
        sends == [] && running && okTimer == old(okTimer) && state.masterID == old(state.masterID)
      ensures !old(running) && Outranked() ==>
        running && okTimer == Some(now + okTimeout) && state.masterID == old(state.masterID) && Challenges(sends)
      ensures !old(running) && !Outranked() ==>
        !running && okTimer == None && state.masterID == state.self && Announces(sends)
    {
      if running {
        return [];
      }
      running := true;
      var lower := LowerNodes();
      LowerAre(lower);
      if |lower| == 0 {
        sends := DeclareVictory();
        return;
      }
      sends := Broadcast(lower, Election(state.self));
      okTimer := Some(now + okTimeout);
    }

    method DeclareVictory() returns (sends: seq<Send>)
      modifies this, state`masterID
      ensures state.alive == old(state.alive)
      ensures (Value(), sends) == Victory(state.self, PeersOf(state.all, state.self))
      ensures !running && okTimer == None && state.masterID == state.self && Announces(sends)
    {
      running := false;
      okTimer := None;
      state.SetMasterID(state.self);
      var peers := state.Peers();
      sends := Broadcast(peers, Coordinator(state.self));
      AnnouncesAll();
    }

    method TimerFires() returns (sends: seq<Send>)
      modifies this, state`masterID
      ensures (Value(), sends) == OnTimer(old(Value()), state.self, PeersOf(state.all, state.self))
      ensures !running && okTimer == None
      ensures old(running) ==> state.masterID == state.self && Announces(sends)
      ensures !old(running) ==> state.masterID == old(state.masterID) && sends == []
    {
      if !running {
        okTimer := None;
        return [];
      }
      sends := DeclareVictory();
    }

    method ClaimMastership() returns (sends: seq<Send>)
      modifies state`masterID
      ensures Value() == OnCoordinator(old(Value()), state.self)
      ensures sends == SendAll(PeersOf(state.all, state.self), Coordinator(state.self))
      ensures state.masterID == state.self && Announces(sends)
    {
      state.SetMasterID(state.self);
      var peers := state.Peers();
      sends := Broadcast(peers, Coordinator(state.self));
      AnnouncesAll();
    }

    method HandleElection(candidate: int, from: int) returns (sends: seq<Send>, start: bool)
      ensures (sends, start) == OnElection(state.self, candidate, from)
      ensures start <==> state.self < candidate
      ensures sends == if state.self < candidate then [Send(from, OK)] else []
    {
      if state.self >= candidate {
        return [], false;
      }
      sends, start := [Send(from, OK)], true;
    }

    method HandleElectionOK()
      modifies this
      ensures Value() == OnOK(old(Value())) && !running && okTimer == None
    {
      running := false;
      okTimer := None;
    }

    method HandleCoordinator(master: int)
      modifies state`masterID
      ensures Value() == OnCoordinator(old(Value()), master) && state.masterID == master
    {
      state.SetMasterID(master);
    }
  }
}
