/**
 * The customer process: it sends its events, in order, to the branch with
 * its own id, stamping each request with its Lamport clock and merging the
 * reply's clock into it afterwards.
 */
module Customers {
  import opened Events
  import opened Network
  import opened Branches

  /** One entry of a customer's "events" list; a query carries no "money", and "id" may be missing too. */
  datatype CustomerEvent = CustomerEvent(id: Option<int>, iface: string, money: Option<int>)

  /** The request execute_events builds; an absent field is left unset in the message and reads as 0. */
  function RequestFor(cid: int, e: CustomerEvent, clock: int): (r: BranchRequest)
    ensures r.kind == "customer" && r.senderId == cid && r.clock == clock && r.iface == e.iface
    ensures r.eventId == e.id.GetOr(0) && r.money == e.money.GetOr(0)
  {
    BranchRequest(e.iface, e.money.GetOr(0), "customer", cid, e.id.GetOr(0), clock)
  }

  /** Customer.update_local_clock: Lamport's receive rule, with no truth test on the remote clock. */
  function UpdateClock(local: int, remote: int): (r: int)
    ensures r > local && r > remote
    ensures r - 1 == local || r - 1 == remote
  {
    Max(local, remote) + 1
  }

  /** Where a customer's run stands: the cluster, its clock, the requests delivered, and whether one failed. */
  datatype Session = Session(net: Net, clock: int, sent: seq<BranchRequest>, status: Status)

  /**
   * One pass of the loop in execute_events: build the request with the
   * current clock, deliver it to the branch with the customer's id, and
   * merge the reply's clock. A failure (no such branch, or one raised while
   * serving) ends the run.
   */
  function Next(prev: Session, cid: int, e: CustomerEvent): (r: Session)
    ensures SameShape(r.net, prev.net)
    ensures prev.status.Failure? ==> r == prev
    ensures r.sent == prev.sent || r.sent == prev.sent + [RequestFor(cid, e, prev.clock)]
    ensures r.status == Success ==> r.clock > prev.clock && r.sent == prev.sent + [RequestFor(cid, e, prev.clock)]
  {
    if prev.status.Failure? then prev
    else
      var req := RequestFor(cid, e, prev.clock);
      var k := IndexOf(prev.net, cid);
      if k < 0 then Session(prev.net, prev.clock, prev.sent, Failure(Unreachable(cid)))
      else
        var d := MsgDelivery(prev.net, k, req);
        if d.status.Failure? then Session(d.net, prev.clock, prev.sent + [req], d.status)
        else Session(d.net, UpdateClock(prev.clock, ReplyOf(d.net[k], req).clock), prev.sent + [req], Success)
  }

  /** execute_events from clock `clock` over the events `es`. */
  function Serve(net: Net, cid: int, es: seq<CustomerEvent>, clock: int): (r: Session)
    ensures SameShape(r.net, net)
    decreases |es|
  {
    if es == [] then Session(net, clock, [], Success)
    else Next(Serve(net, cid, es[..|es| - 1], clock), cid, es[|es| - 1])
  }

  lemma {:induction false} ServeExtend(net: Net, cid: int, es: seq<CustomerEvent>, i: nat, clock: int)
    requires i < |es|
    ensures Serve(net, cid, es[..i + 1], clock) == Next(Serve(net, cid, es[..i], clock), cid, es[i])
  {
    assert es[..i + 1][..i] == es[..i];
  }

  /** After a failure no further request is sent. */
  lemma {:induction false} ServeFailureSticks(net: Net, cid: int, es: seq<CustomerEvent>, i: nat, clock: int)
    requires i <= |es| && Serve(net, cid, es[..i], clock).status.Failure?
    ensures Serve(net, cid, es, clock) == Serve(net, cid, es[..i], clock)
    decreases |es| - i
  {
    if i == |es| {
      assert es[..i] == es;
    } else {
      ServeExtend(net, cid, es, i, clock);
      ServeFailureSticks(net, cid, es, i + 1, clock);
    }
  }

  /** The requests a run sends, in event order, each with the clock the customer had when it was built. */
  predicate SentInOrder(sent: seq<BranchRequest>, cid: int, es: seq<CustomerEvent>, clock: int) {
    && |sent| <= |es|
    && (forall i :: 0 <= i < |sent| ==> sent[i] == RequestFor(cid, es[i], sent[i].clock))
    && (|sent| > 0 ==> sent[0].clock == clock)
    && (forall i :: 0 <= i < |sent| - 1 ==> sent[i].clock < sent[i + 1].clock)
  }

  lemma {:induction false} SentAppend(sent: seq<BranchRequest>, cid: int, es: seq<CustomerEvent>, clock: int, req: BranchRequest)
    requires es != [] && SentInOrder(sent, cid, es[..|es| - 1], clock) && |sent| == |es| - 1
    requires req == RequestFor(cid, es[|es| - 1], req.clock)
    requires sent == [] ==> req.clock == clock
    requires sent != [] ==> sent[|sent| - 1].clock < req.clock
    ensures SentInOrder(sent + [req], cid, es, clock)
  {
    var s := sent + [req];
    forall i | 0 <= i < |s| ensures s[i] == RequestFor(cid, es[i], s[i].clock) {
      if i < |sent| {
        assert es[..|es| - 1][i] == es[i];
      }
    }
  }

  /**
   * The customer's clock on a run: the requests go out in event order with
   * strictly increasing clocks starting at the initial clock, it never goes
   * back, and after a successful run every event was sent and the clock is
   * past the last request's clock.
   */
  lemma {:induction false} ServeClocks(net: Net, cid: int, es: seq<CustomerEvent>, clock: int)
    ensures var r := Serve(net, cid, es, clock);
      && SentInOrder(r.sent, cid, es, clock)
      && r.clock >= clock
      && r.clock >= clock + |r.sent| - (if r.status.Success? then 0 else 1)
      && (r.status == Success ==> |r.sent| == |es| && (es != [] ==> r.sent[|es| - 1].clock < r.clock))
      && (r.status == Success || r.sent == [] || r.sent[|r.sent| - 1].clock == r.clock)
    decreases |es|
  {
    if es != [] {
      var init := es[..|es| - 1];
      ServeClocks(net, cid, init, clock);
      var prev := Serve(net, cid, init, clock);
      var r := Serve(net, cid, es, clock);
      assert r == Next(prev, cid, es[|es| - 1]);
      if prev.status.Failure? || IndexOf(prev.net, cid) < 0 {
        assert r.sent == prev.sent;
        forall i | 0 <= i < |r.sent| ensures r.sent[i] == RequestFor(cid, es[i], r.sent[i].clock) {
          assert init[i] == es[i];
        }
      } else {
        var req := RequestFor(cid, es[|es| - 1], prev.clock);
        assert r.sent == prev.sent + [req];
        SentAppend(prev.sent, cid, es, clock, req);
      }
    }
  }

  /** The net change a list of events asks for: the sum of the write deltas. */
  function TotalDelta(es: seq<CustomerEvent>): int
    decreases |es|
  {
    if es == [] then 0
    else TotalDelta(es[..|es| - 1]) + Delta(es[|es| - 1].iface, es[|es| - 1].money.GetOr(0))
  }

  /**
   * In a fully connected cluster where the customer's branch exists, every
   * event is served, and every branch's balance moves by the sum of the
   * events' deltas, so balances that start equal end equal.
   */
  lemma {:induction false} ServeConverges(net: Net, cid: int, es: seq<CustomerEvent>, clock: int)
    requires DistinctIds(net) && AllPeersAreOthers(net) && IndexOf(net, cid) >= 0
    ensures var r := Serve(net, cid, es, clock);
      && r.status == Success && |r.sent| == |es|
      && (forall k :: 0 <= k < |net| ==> r.net[k].balance == net[k].balance + TotalDelta(es))
      && (AllBalancesEqual(net) ==> AllBalancesEqual(r.net))
    decreases |es|
  {
    if es != [] {
      var init := es[..|es| - 1];
      var e := es[|es| - 1];
      ServeConverges(net, cid, init, clock);
      var prev := Serve(net, cid, init, clock);
      SameShapeConnections(prev.net, net);
      SameShapeIndexOf(prev.net, net, cid);
      var k := IndexOf(prev.net, cid);
      var req := RequestFor(cid, e, prev.clock);
      CustomerRequestConverges(prev.net, k, req);
      var r := Serve(net, cid, es, clock);
      assert r.net == MsgDelivery(prev.net, k, req).net;
      assert |r.sent| == |es|;
    }
  }

  /** A run keeps the clock discipline of every branch, whichever of its requests fail. */
  lemma {:induction false} ServeMonotone(net: Net, cid: int, es: seq<CustomerEvent>, clock: int)
    requires AllMonotone(net)
    ensures AllMonotone(Serve(net, cid, es, clock).net)
    decreases |es|
  {
    if es != [] {
      var prev := Serve(net, cid, es[..|es| - 1], clock);
      ServeMonotone(net, cid, es[..|es| - 1], clock);
      var k := IndexOf(prev.net, cid);
      if !prev.status.Failure? && k >= 0 {
        MsgDeliveryMonotone(prev.net, k, RequestFor(cid, es[|es| - 1], prev.clock));
      }
    }
  }

  class Customer {
    const id: int
    const events: seq<CustomerEvent>
    var localClock: int

    /** Customer.__init__: clock 0 (the debugging list and the stub are left out). */
    constructor (id: int, events: seq<CustomerEvent>)
      ensures this.id == id && this.events == events && localClock == 0
    {
      this.id := id;
      this.events := events;
      localClock := 0;
    }

    /** update_local_clock with the reply's clock. */
    method UpdateLocalClock(remote: int)
      modifies this
      ensures localClock == UpdateClock(old(localClock), remote)
    {
      localClock := Max(localClock, remote) + 1;
    }

    /** execute_events, through the stub of the branch with this customer's id. */
    method ExecuteEvents(c: Cluster) returns (status: Status, sent: seq<BranchRequest>)
      requires c.Valid()
      modifies this, c.servers
      ensures Session(c.NetState(), localClock, sent, status) == Serve(old(c.NetState()), id, events, old(localClock))
    {
      ghost var net := c.NetState();
      ghost var clock := localClock;
      status, sent := Success, [];
      var i := 0;
      while i < |events|
        invariant 0 <= i <= |events|
        invariant Session(c.NetState(), localClock, sent, Success) == Serve(net, id, events[..i], clock)
      {
        ServeExtend(net, id, events, i, clock);
        var req := RequestFor(id, events[i], localClock);
        var k := IndexOf(c.NetState(), id);
        if k < 0 {
          status := Failure(Unreachable(id));
          ServeFailureSticks(net, id, events, i + 1, clock);
          return;
        }
        var reply, st, _ := c.servers[k].MsgDelivery(c, k, req);
        sent := sent + [req];
        if st.Failure? {
          status := st;
          ServeFailureSticks(net, id, events, i + 1, clock);
          return;
        }
        UpdateLocalClock(reply.clock);
        i := i + 1;
      }
      assert events[..i] == events;
    }
  }
}
