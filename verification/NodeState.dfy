/**
 A node's view of the cluster (internal/nodestate/state.go): who is configured, who is believed alive and
 who is believed to be master.  Nodes are named by their ids.
 */
module NodeState {
  import opened Sequences

  /** All configured nodes but this one. */
  function PeersOf(all: seq<int>, self: int): seq<int> {
    if all == [] then []
    else
      var n, rest := all[|all| - 1], PeersOf(all[..|all| - 1], self);
      if n != self then rest + [n] else rest
  }

  /** The nodes of a list that are believed alive. */
  function AliveOf(nodes: seq<int>, alive: set<int>): seq<int> {
    if nodes == [] then []
    else
      var n, rest := nodes[|nodes| - 1], AliveOf(nodes[..|nodes| - 1], alive);
      if n in alive then rest + [n] else rest
  }

  /** The nodes of a list with a smaller id, that is, a higher priority. */
  function LowerOf(nodes: seq<int>, self: int): seq<int> {
    if nodes == [] then []
    else
      var n, rest := nodes[|nodes| - 1], LowerOf(nodes[..|nodes| - 1], self);
      if n < self then rest + [n] else rest
  }

  function OtherThan(self: int): int -> bool { (n: int) => n != self }
  function Among(alive: set<int>): int -> bool { (n: int) => n in alive }
  function Below(self: int): int -> bool { (n: int) => n < self }

  // Each list has exactly the nodes it is to have, in the configured order and as often as configured.

  lemma {:induction false} PeersSelected(all: seq<int>, self: int)
    ensures Selects(all, OtherThan(self), PeersOf(all, self))
  {
    if all == [] {
      SelectsNothing(OtherThan(self));
    } else {
      var before, last := all[..|all| - 1], all[|all| - 1];
      PeersSelected(before, self);
      var rest, now := PeersOf(before, self), PeersOf(all, self);
      assert now == if OtherThan(self)(last) then rest + [last] else rest;
      assert all == before + [last];
      SelectsOneMore(before, OtherThan(self), rest, last);
    }
  }

  lemma PeersExact(all: seq<int>, self: int)
    ensures forall n :: n in PeersOf(all, self) <==> n in all && n != self
  {
    PeersSelected(all, self);
    SelectionMembers(all, OtherThan(self), PeersOf(all, self));
  }

  lemma {:induction false} AliveSelected(nodes: seq<int>, alive: set<int>)
    ensures Selects(nodes, Among(alive), AliveOf(nodes, alive))
  {
    if nodes == [] {
      SelectsNothing(Among(alive));
    } else {
      var before, last := nodes[..|nodes| - 1], nodes[|nodes| - 1];
      AliveSelected(before, alive);
      var rest, now := AliveOf(before, alive), AliveOf(nodes, alive);
      assert now == if Among(alive)(last) then rest + [last] else rest;
      assert nodes == before + [last];
      SelectsOneMore(before, Among(alive), rest, last);
    }
  }

  lemma AliveExact(nodes: seq<int>, alive: set<int>)
    ensures forall n :: n in AliveOf(nodes, alive) <==> n in nodes && n in alive
  {
    AliveSelected(nodes, alive);
    SelectionMembers(nodes, Among(alive), AliveOf(nodes, alive));
  }

  lemma {:induction false} LowerSelected(nodes: seq<int>, self: int)
    ensures Selects(nodes, Below(self), LowerOf(nodes, self))
  {
    if nodes == [] {
      SelectsNothing(Below(self));
    } else {
      var before, last := nodes[..|nodes| - 1], nodes[|nodes| - 1];
      LowerSelected(before, self);
      var rest, now := LowerOf(before, self), LowerOf(nodes, self);
      assert now == if Below(self)(last) then rest + [last] else rest;
      assert nodes == before + [last];
      SelectsOneMore(before, Below(self), rest, last);
    }
  }

  lemma LowerExact(nodes: seq<int>, self: int)
    ensures forall n :: n in LowerOf(nodes, self) <==> n in nodes && n < self
  {
    LowerSelected(nodes, self);
    SelectionMembers(nodes, Below(self), LowerOf(nodes, self));
  }

  class Membership {
    const self: int
    const all: seq<int>
    var masterID: int
    var alive: map<int, bool>

    ghost function Alive(): set<int>
      reads this
    {
      set n | n in alive && alive[n]
    }

    /** At the start every configured node counts as alive. */
    constructor (self: int, all: seq<int>, masterID: int)
      ensures this.self == self && this.all == all && this.masterID == masterID
      ensures Alive() == set n | n in all
    {
      this.self, this.all, this.masterID := self, all, masterID;
      alive := map n | n in all :: true;
    }

    method Peers() returns (out: seq<int>)
      ensures out == PeersOf(all, self)
    {
      out := [];
      for i := 0 to |all|
        invariant out == PeersOf(all[..i], self)
      {
        assert all[..i + 1][..i] == all[..i];
        if all[i] != self {
          out := out + [all[i]];
        }
      }
      assert all[..|all|] == all;
    }

    method AlivePeers() returns (out: seq<int>)
      ensures out == AliveOf(PeersOf(all, self), Alive())
    {
      out := [];
      for i := 0 to |all|
        invariant out == AliveOf(PeersOf(all[..i], self), Alive())
      {
        assert all[..i + 1][..i] == all[..i];
        var before := PeersOf(all[..i], self);
        assert (before + [all[i]])[..|before|] == before;
        if all[i] != self && all[i] in alive && alive[all[i]] {
          out := out + [all[i]];
        }
      }
      assert all[..|all|] == all;
    }

    method MarkAlive(id: int)
      modifies this`alive
      ensures Alive() == old(Alive()) + {id}
    {
      alive := alive[id := true];
    }

    method MarkDead(id: int)
      modifies this`alive
      ensures Alive() == old(Alive()) - {id}
    {
      alive := alive[id := false];
    }

    method IsAlive(id: int) returns (yes: bool)
      ensures yes <==> id in Alive()
    {
      yes := id in alive && alive[id];
    }

    method SetMasterID(id: int)
      modifies this`masterID
      ensures masterID == id
    {
      masterID := id;
    }

    /** GetMasterNode finds a node exactly if the believed master is a configured one. */
    method MasterIsKnown() returns (known: bool)
      ensures known <==> masterID in all
    {
      for i := 0 to |all|
        invariant masterID !in all[..i]
      {
        if all[i] == masterID {
          return true;
        }
      }
      known := false;
    }

    method IsMaster() returns (yes: bool)
      ensures yes <==> masterID == self
    {
      yes := self == masterID;
    }
  }
}
