/**
 The lock engine of one node (internal/mutex/mutex.go).

 `Engine` is the value the engine's mutex protects.  `Arrive` and `HandOver` say what one critical
 section does to it; `LockEngine.MutexEngine` is the object that updates its fields in place and is
 proved against them.  LockProtocol.dfy runs many engines against each other.
 */
module LockEngine {
  import opened Options

  type Node = nat

  /** A request id.  The source draws a UUID; all that is used of it is that no two requests share one. */
  datatype Req = Req(owner: Node, serial: nat)

  datatype Pending = Pending(req: Req, from: Node)

  datatype Engine = Engine(holder: Option<Req>, queue: seq<Pending>, grants: set<Req>)

  /** What a critical section asks to be done with a channel or the network. */
  datatype Reply = NoReply | Notify(req: Req) | SendGrant(to: Node, req: Req) | SendDeny(to: Node, req: Req)

  const EMPTY := Engine(None, [], {})

  /** A request reaches the arbiter: it takes a free lock and otherwise joins the queue. */
  function Arrive(e: Engine, p: Pending): Engine {
    if e.holder.None? then e.(holder := Some(p.req)) else e.(queue := e.queue + [p])
  }

  /** The release of `r`: stale releases are ignored, otherwise the head of the queue becomes holder. */
  function HandOver(e: Engine, r: Req): (Engine, Reply) {
    if e.holder != Some(r) then (e, NoReply)
    else if e.queue == [] then (e.(holder := None), NoReply)
    else
      var next := e.queue[0];
      var e' := e.(holder := Some(next.req), queue := e.queue[1..]);
      if next.req in e.grants then (e'.(grants := e.grants - {next.req}), Notify(next.req))
      else (e', SendGrant(next.from, next.req))
  }

  /** A Go channel of capacity one carrying `true`. */
  class Channel {
    var buffered: nat

    constructor ()
      ensures buffered == 0
    {
      buffered := 0;
    }
  }

  class MutexEngine {
    const self: Node
    var holder: Option<Req>
    var queue: seq<Pending>
    var grants: map<Req, Channel>

    ghost function Value(): Engine
      reads this
    {
      Engine(holder, queue, grants.Keys)
    }

    /** Each request has its own channel. */
    ghost predicate Valid()
      reads this
    {
      forall r, q :: r in grants && q in grants && r != q ==> grants[r] != grants[q]
    }

    constructor (self: Node)
      ensures Valid() && Value() == EMPTY && this.self == self
    {
      this.self := self;
      holder, queue, grants := None, [], map[];
    }

    /** First critical section of acquireLocal: take the lock or queue up. */
    method TakeOrQueue(r: Req) returns (taken: bool)
      requires Valid()
      modifies this
      ensures Valid() && grants == old(grants)
      ensures Value() == Arrive(old(Value()), Pending(r, self))
      ensures taken <==> old(holder).None?
      ensures taken ==> holder == Some(r) && queue == old(queue)
      ensures !taken ==> holder == old(holder) && queue == old(queue) + [Pending(r, self)]
    {
      taken := holder.None?;
      if taken {
        holder := Some(r);
      } else {
        queue := queue + [Pending(r, self)];
      }
    }

    /** The caller stores the channel it will wait on. */
    method Register(r: Req, ch: Channel)
      requires Valid() && ch !in grants.Values
      modifies this
      ensures Valid() && grants == old(grants)[r := ch]
      ensures Value() == old(Value()).(grants := old(Value()).grants + {r})
    {
      assert forall q :: q in grants ==> grants[q] in grants.Values;
      grants := grants[r := ch];
    }

    /** A remote caller that fails to send or times out removes its channel. */
    method Unregister(r: Req)
      requires Valid()
      modifies this
      ensures Valid() && grants == old(grants) - {r}
      ensures Value() == old(Value()).(grants := old(Value()).grants - {r})
    {
      grants := grants - {r};
    }

    /**
     releaseLocal.  The send on the waiter's channel is made while the engine lock is held, so it must
     not block: LockProtocol.HandOverNeverBlocks shows that the precondition always holds.
     */
    method ReleaseLocal(r: Req) returns (reply: Reply)
      requires Valid()
      requires queue != [] && queue[0].req in grants ==> grants[queue[0].req].buffered == 0
      modifies this, grants.Values
      ensures Valid()
      ensures (Value(), reply) == HandOver(old(Value()), r)
      ensures old(holder) != Some(r) ==>
        holder == old(holder) && queue == old(queue) && grants == old(grants) && reply == NoReply
      ensures old(holder) == Some(r) && old(queue) == [] ==>
        holder == None && queue == [] && grants == old(grants) && reply == NoReply
      ensures old(holder) == Some(r) && old(queue) != [] ==>
        var next := old(queue)[0];
        && holder == Some(next.req) && queue == old(queue)[1..] && grants == old(grants) - {next.req}
        && reply == if next.req in old(grants) then Notify(next.req) else SendGrant(next.from, next.req)
      ensures forall q :: q in old(grants) ==>
        old(grants[q]).buffered == old(grants[q].buffered) + (if reply == Notify(q) then 1 else 0)
      ensures reply.Notify? ==> reply.req in old(grants) && old(grants[reply.req]).buffered == 1
    {
      if holder != Some(r) {
        return NoReply;
      }
      holder := None;
      reply := NoReply;
      if |queue| > 0 {
        var next := queue[0];
        queue := queue[1..];
        holder := Some(next.req);
        if next.req in grants {
          assert grants[next.req] in grants.Values;
          var ch := grants[next.req];
          ch.buffered := ch.buffered + 1;
          grants := grants - {next.req};
          reply := Notify(next.req);
        } else {
          reply := SendGrant(next.from, next.req);
        }
      }
    }

    /** HandleLockRequest at the arbiter. */
    method HandleLockRequest(from: Node, r: Req) returns (reply: Reply)
      requires Valid()
      modifies this
      ensures Valid() && grants == old(grants)
      ensures Value() == Arrive(old(Value()), Pending(r, from))
      ensures old(holder).None? ==> holder == Some(r) && queue == old(queue)
      ensures old(holder).Some? ==> holder == old(holder) && queue == old(queue) + [Pending(r, from)]
      ensures reply == if old(holder).None? then SendGrant(from, r) else SendDeny(from, r)
    {
      if holder.None? {
        holder := Some(r);
        reply := SendGrant(from, r);
      } else {
        queue := queue + [Pending(r, from)];
        reply := SendDeny(from, r);
      }
    }

    /**
     HandleLockGrant: the channel is looked up under the lock and the token is sent after it, in two steps of
     LockProtocol.  A grant that finds no channel is dropped without a trace; the other waiters' channels are
     not touched.  LockProtocol.SendsNeverBlock shows that the send always finds room.
     */
    method HandleLockGrant(r: Req)
      requires Valid()
      requires r in grants ==> grants[r].buffered == 0
      modifies grants.Values
      ensures Valid() && Value() == old(Value())
      ensures r in grants ==> grants[r].buffered == 1
      ensures forall q :: q in grants && q != r ==> grants[q].buffered == old(grants[q].buffered)
    {
      if r in grants {
        assert grants[r] in grants.Values;
        var ch := grants[r];
        ch.buffered := ch.buffered + 1;
      }
    }
  }

  /** A number that no request in `used` has. */
  lemma {:induction false} UnusedSerial(used: set<Req>) returns (k: nat)
    ensures forall r :: r in used ==> r.serial < k
  {
    if used == {} {
      k := 0;
    } else {
      var r :| r in used;
      k := UnusedSerial(used - {r});
      k := if r.serial < k then k else r.serial + 1;
    }
  }

  // ---- First come, first served -------------------------------------------------------------------

  datatype Event = Arrival(p: Pending) | Released(r: Req)

  /** A free lock has nobody waiting for it. */
  ghost predicate FreeMeansNoQueue(e: Engine) {
    e.holder.None? ==> e.queue == []
  }

  function Handle(e: Engine, ev: Event): Engine {
    match ev
    case Arrival(p) => Arrive(e, p)
    case Released(r) => HandOver(e, r).0
  }

  function Play(e: Engine, evs: seq<Event>): Engine {
    if evs == [] then e else Handle(Play(e, evs[..|evs| - 1]), evs[|evs| - 1])
  }

  function Arrived(ev: Event): seq<Req> {
    match ev case Arrival(p) => [p.req] case Released(_) => []
  }

  /** The requests that arrived, in order. */
  function Arrivals(evs: seq<Event>): seq<Req> {
    if evs == [] then [] else Arrivals(evs[..|evs| - 1]) + Arrived(evs[|evs| - 1])
  }

  /** A release that names the holder and so ends its turn. */
  predicate Effective(e: Engine, ev: Event) {
    ev.Released? && e.holder == Some(ev.r)
  }

  function EffectiveReleases(e: Engine, evs: seq<Event>): nat {
    if evs == [] then 0
    else
      var before := EffectiveReleases(e, evs[..|evs| - 1]);
      if Effective(Play(e, evs[..|evs| - 1]), evs[|evs| - 1]) then before + 1 else before
  }

  /** A turn starts when the lock is taken while free or handed over by an effective release. */
  function TurnStarted(e: Engine, ev: Event): seq<Req> {
    var after := Handle(e, ev).holder;
    if after.Some? && (if ev.Arrival? then e.holder.None? else Effective(e, ev)) then [after.value] else []
  }

  /** The requests that were ever made holder, in order. */
  function Turns(e: Engine, evs: seq<Event>): seq<Req> {
    if evs == [] then []
    else Turns(e, evs[..|evs| - 1]) + TurnStarted(Play(e, evs[..|evs| - 1]), evs[|evs| - 1])
  }

  function Waiting(q: seq<Pending>): (rs: seq<Req>)
    ensures |rs| == |q| && forall i :: 0 <= i < |q| ==> rs[i] == q[i].req
  {
    seq(|q|, i requires 0 <= i < |q| => q[i].req)
  }

  /** A release of anything but the holder changes nothing and sends nothing; the real one always ends the turn. */
  lemma StaleReleasesAreInert(e: Engine, r: Req)
    requires FreeMeansNoQueue(e)
    ensures HandOver(e, r) == (e, NoReply) <==> e.holder != Some(r)
  {
    if e.holder == Some(r) && e.queue != [] {
      assert HandOver(e, r).1 != NoReply;
    }
  }

  lemma {:induction false} FreeLockHasEmptyQueue(e: Engine, evs: seq<Event>)
    requires FreeMeansNoQueue(e)
    ensures FreeMeansNoQueue(Play(e, evs))
  {
    if evs != [] {
      FreeLockHasEmptyQueue(e, evs[..|evs| - 1]);
    }
  }

  lemma OneEventKeepsOrder(e: Engine, ev: Event)
    requires FreeMeansNoQueue(e)
    ensures TurnStarted(e, ev) + Waiting(Handle(e, ev).queue) == Waiting(e.queue) + Arrived(ev)
  {
    var after := Handle(e, ev);
    if Effective(e, ev) && e.queue != [] {
      assert Waiting(e.queue) == [e.queue[0].req] + Waiting(after.queue);
    }
  }

  /** Turns taken so far, followed by those still waiting, are the arrivals in their order. */
  lemma {:induction false} FirstComeFirstServed(e: Engine, evs: seq<Event>)
    requires FreeMeansNoQueue(e)
    ensures Turns(e, evs) + Waiting(Play(e, evs).queue) == Waiting(e.queue) + Arrivals(evs)
  {
    if evs != [] {
      var evs', ev := evs[..|evs| - 1], evs[|evs| - 1];
      var before := Play(e, evs');
      FreeLockHasEmptyQueue(e, evs');
      calc {
        Turns(e, evs) + Waiting(Play(e, evs).queue);
        Turns(e, evs') + (TurnStarted(before, ev) + Waiting(Handle(before, ev).queue));
        { OneEventKeepsOrder(before, ev); }
        (Turns(e, evs') + Waiting(before.queue)) + Arrived(ev);
        { FirstComeFirstServed(e, evs'); }
        (Waiting(e.queue) + Arrivals(evs')) + Arrived(ev);
        Waiting(e.queue) + Arrivals(evs);
      }
    }
  }

  /** After k <= i effective releases the request at index i has moved up to index i - k. */
  lemma {:induction false} MovesUpOnePerRelease(e: Engine, evs: seq<Event>, i: nat)
    requires FreeMeansNoQueue(e) && i < |e.queue|
    requires EffectiveReleases(e, evs) <= i
    ensures i - EffectiveReleases(e, evs) < |Play(e, evs).queue|
    ensures Play(e, evs).queue[i - EffectiveReleases(e, evs)] == e.queue[i]
    ensures Play(e, evs).holder.Some?
  {
    if evs != [] {
      MovesUpOnePerRelease(e, evs[..|evs| - 1], i);
    }
  }

  /** ... and the (i+1)-st effective release makes it the holder: no request is overtaken. */
  lemma HolderAfterOneMoreRelease(e: Engine, evs: seq<Event>, i: nat, r: Req)
    requires FreeMeansNoQueue(e) && i < |e.queue|
    requires EffectiveReleases(e, evs) == i && Effective(Play(e, evs), Released(r))
    ensures EffectiveReleases(e, evs + [Released(r)]) == i + 1
    ensures Play(e, evs + [Released(r)]).holder == Some(e.queue[i].req)
  {
    MovesUpOnePerRelease(e, evs, i);
    assert (evs + [Released(r)])[..|evs|] == evs;
  }
}
