/**
 * The system-level model of the branches: a sequence of branch states (the
 * list of Branch objects the driver creates), the request dispatch of
 * MsgDelivery, the customer path (request, execute, one propagation call
 * per peer, response) and the peer path. The remote call of
 * `_link_to_branch` is abstracted as a Propagator: the call to peer `p` runs
 * `p`'s peer path on its state in the sequence with the origin's current
 * clock, and a peer id with no branch in the sequence is unreachable.
 */
module Network {
  import opened Events

  type Net = seq<BranchState>

  /** A BranchRequest: interface, money, sender type ("customer" or "branch"), sender id, event id, clock. */
  datatype BranchRequest = BranchRequest(iface: string, money: int, kind: string, senderId: int, eventId: int, clock: int)

  /** A BranchReply (request_status is never set by any caller and is left out). */
  datatype Reply = Reply(balance: int, id: int, eventId: int, iface: string, clock: int)

  /** One propagation call the origin sends, and to whom. */
  datatype PeerCall = PeerCall(receiver: int, request: BranchRequest)

  datatype NetOutcome = NetOutcome(net: Net, status: Status, calls: seq<PeerCall>)

  predicate DistinctIds(net: Net) {
    forall i, j :: 0 <= i < j < |net| ==> net[i].id != net[j].id
  }

  ghost predicate AllMonotone(net: Net) {
    forall k :: 0 <= k < |net| ==> Monotone(net[k])
  }

  /** Ids and peer lists are fixed at construction; every step keeps them. */
  predicate SameShape(a: Net, b: Net) {
    |a| == |b| && forall k :: 0 <= k < |a| ==> a[k].id == b[k].id && a[k].branches == b[k].branches
  }

  /** Address resolution: the position of the first branch with this id, or -1 when there is none. */
  function IndexOf(net: Net, id: int): (i: int)
    ensures -1 <= i < |net|
    ensures 0 <= i ==> net[i].id == id && forall j :: 0 <= j < i ==> net[j].id != id
    ensures i < 0 ==> forall j :: 0 <= j < |net| ==> net[j].id != id
  {
    if |net| == 0 then -1
    else if net[0].id == id then 0
    else
      var k := IndexOf(net[1..], id);
      if k < 0 then -1 else k + 1
  }

  lemma SameShapeIndexOf(a: Net, b: Net, id: int)
    requires SameShape(a, b)
    ensures IndexOf(a, id) == IndexOf(b, id)
  {
  }

  /** Every peer id in the list has a branch to answer it. */
  predicate Resolvable(net: Net, ps: seq<int>) {
    forall j :: 0 <= j < |ps| ==> IndexOf(net, ps[j]) >= 0
  }

  /** The reply of MsgDelivery: the target's balance and clock after serving the request. */
  function ReplyOf(s: BranchState, req: BranchRequest): Reply {
    Reply(s.balance, s.id, req.eventId, req.iface, s.clock)
  }

  /** The propagation request built in `_propagate_to_branches` from the origin's current state. */
  function PeerRequest(origin: BranchState, iface: string, amount: int, eid: int): BranchRequest {
    BranchRequest(iface, amount, "branch", origin.id, eid, origin.clock)
  }

  /**
   * `_link_to_branch`: send the propagation request to peer `p`, let it run
   * its peer path, and fold its returned clock into the origin through the
   * propagate-response phase. An unknown peer stops the operation.
   */
  function LinkToBranch(net: Net, o: nat, p: int, iface: string, amount: int, eid: int): (r: NetOutcome)
    requires o < |net|
    ensures SameShape(r.net, net)
    ensures |r.calls| <= 1 && (r.status == Success ==> |r.calls| == 1)
    ensures r.status == Failure(Unreachable(p)) <==> IndexOf(net, p) < 0
  {
    var k := IndexOf(net, p);
    if k < 0 then NetOutcome(net, Failure(Unreachable(p)), [])
    else
      var req := PeerRequest(net[o], iface, amount, eid);
      var d := PeerPath(net[k], req.eventId, req.iface, req.money, req.clock);
      var n1 := net[k := d.state];
      if d.status.Failure? then NetOutcome(n1, d.status, [PeerCall(p, req)])
      else
        var reply := ReplyOf(d.state, req);
        var n2 := n1[o := PropagateResponsePhase(n1[o], reply.eventId, reply.iface, reply.clock)];
        NetOutcome(n2, Success, [PeerCall(p, req)])
  }

  /** `_propagate_to_branches`: one call per peer, in list order, stopping at the first failure. */
  function Propagate(net: Net, o: nat, ps: seq<int>, iface: string, amount: int, eid: int): (r: NetOutcome)
    requires o < |net|
    ensures SameShape(r.net, net)
    ensures |r.calls| <= |ps| && (r.status == Success ==> |r.calls| == |ps|)
    decreases |ps|
  {
    if ps == [] then NetOutcome(net, Success, [])
    else
      var prev := Propagate(net, o, ps[..|ps| - 1], iface, amount, eid);
      if prev.status.Failure? then prev
      else
        var step := LinkToBranch(prev.net, o, ps[|ps| - 1], iface, amount, eid);
        NetOutcome(step.net, step.status, prev.calls + step.calls)
  }

  /** event_execute_2 at branch `o`: tick, log, apply the delta, then propagate to the peers. */
  function ExecuteAndPropagate(net: Net, o: nat, eid: int, iface: string, amount: int): (r: NetOutcome)
    requires o < |net|
    ensures SameShape(r.net, net)
    ensures r.status == Success ==> |r.calls| == |net[o].branches|
  {
    var x := ExecutePhase(net[o], eid, iface, amount);
    var n := net[o := x.state];
    if x.status.Failure? then NetOutcome(n, x.status, [])
    else Propagate(n, o, net[o].branches, iface, amount, eid)
  }

  /** deposit_or_withdraw: the customer path at branch `o`. */
  function DepositOrWithdraw(net: Net, o: nat, req: BranchRequest): (r: NetOutcome)
    requires o < |net|
    ensures SameShape(r.net, net)
    ensures r.status == Success ==> |r.calls| == |net[o].branches|
  {
    var n1 := net[o := RequestPhase(net[o], req.eventId, req.iface, req.clock)];
    var x := ExecuteAndPropagate(n1, o, req.eventId, req.iface, req.money);
    if x.status.Failure? then x
    else NetOutcome(x.net[o := ResponsePhase(x.net[o])], Success, x.calls)
  }

  /**
   * MsgDelivery at branch `t`: a customer write takes the customer path, a
   * branch write the peer path; a query, any other interface and any other
   * sender type change nothing.
   */
  function MsgDelivery(net: Net, t: nat, req: BranchRequest): (r: NetOutcome)
    requires t < |net|
    ensures SameShape(r.net, net)
    ensures req.kind == "customer" && r.status == Success && IsWrite(req.iface) ==> |r.calls| == |net[t].branches|
    ensures req.kind != "customer" ==> r.calls == []
  {
    if IsWrite(req.iface) && req.kind == "customer" then DepositOrWithdraw(net, t, req)
    else if IsWrite(req.iface) && req.kind == "branch" then
      var d := PeerPath(net[t], req.eventId, req.iface, req.money, req.clock);
      NetOutcome(net[t := d.state], d.status, [])
    else NetOutcome(net, Success, [])
  }

  // ---------------------------------------------------------------- dispatch

  /** A query, an unknown interface or an unknown sender type changes no balance, clock or log. */
  lemma {:induction false} NonWritesArePure(net: Net, t: nat, req: BranchRequest)
    requires t < |net|
    requires !IsWrite(req.iface) || (req.kind != "customer" && req.kind != "branch")
    ensures MsgDelivery(net, t, req) == NetOutcome(net, Success, [])
    ensures ReplyOf(MsgDelivery(net, t, req).net[t], req) == Reply(net[t].balance, net[t].id, req.eventId, req.iface, net[t].clock)
  {
  }

  /** The peer path of a write never fails. */
  lemma {:induction false} PeerPathSucceeds(s: BranchState, eid: int, iface: string, amount: int, remote: int)
    requires IsWrite(iface)
    ensures PeerPath(s, eid, iface, amount, remote).status == Success
    ensures PeerPath(s, eid, iface, amount, remote).state.balance == s.balance + Delta(iface, amount)
  {
  }

  /**
   * The guard in MsgDelivery means InvalidInterface never escapes it: a
   * request either succeeds or stops at an unreachable peer.
   */
  lemma {:induction false} NoInvalidInterface(net: Net, t: nat, req: BranchRequest)
    requires t < |net|
    ensures MsgDelivery(net, t, req).status != Failure(InvalidInterface)
  {
    if IsWrite(req.iface) && req.kind == "customer" {
      var n1 := net[t := RequestPhase(net[t], req.eventId, req.iface, req.clock)];
      PropagateNeverInvalid(n1[t := ExecutePhase(n1[t], req.eventId, req.iface, req.money).state],
        t, n1[t].branches, req.iface, req.money, req.eventId);
    }
  }

  lemma {:induction false} PropagateNeverInvalid(net: Net, o: nat, ps: seq<int>, iface: string, amount: int, eid: int)
    requires o < |net| && IsWrite(iface)
    ensures Propagate(net, o, ps, iface, amount, eid).status != Failure(InvalidInterface)
    decreases |ps|
  {
    if ps != [] {
      PropagateNeverInvalid(net, o, ps[..|ps| - 1], iface, amount, eid);
    }
  }

  // ---------------------------------------------------------------- propagation steps

  /** Without its last peer a resolvable list stays resolvable, and its last peer is reachable. */
  lemma {:induction false} ResolvableInit(net: Net, ps: seq<int>)
    requires Resolvable(net, ps) && ps != []
    ensures Resolvable(net, ps[..|ps| - 1]) && IndexOf(net, ps[|ps| - 1]) >= 0
  {
    var init := ps[..|ps| - 1];
    forall j | 0 <= j < |init| ensures IndexOf(net, init[j]) >= 0 {
      assert init[j] == ps[j];
    }
  }

  /** Address resolution sees only the ids, which every step keeps. */
  lemma {:induction false} SameShapeResolvable(a: Net, b: Net, ps: seq<int>)
    requires SameShape(a, b) && Resolvable(b, ps)
    ensures Resolvable(a, ps)
  {
    forall j | 0 <= j < |ps| ensures IndexOf(a, ps[j]) >= 0 {
      SameShapeIndexOf(a, b, ps[j]);
    }
  }

  /** Once the calls before it have succeeded, a propagation is its last call on top of them. */
  lemma {:induction false} PropagateLast(net: Net, o: nat, ps: seq<int>, iface: string, amount: int, eid: int)
    requires o < |net| && ps != []
    requires Propagate(net, o, ps[..|ps| - 1], iface, amount, eid).status == Success
    ensures var prev := Propagate(net, o, ps[..|ps| - 1], iface, amount, eid);
      var step := LinkToBranch(prev.net, o, ps[|ps| - 1], iface, amount, eid);
      Propagate(net, o, ps, iface, amount, eid) == NetOutcome(step.net, step.status, prev.calls + step.calls)
  {
  }

  /** The propagation over the first i + 1 peers is the one over the first i, then the call to peer i. */
  lemma {:induction false} PropagateExtend(net: Net, o: nat, ps: seq<int>, i: nat, iface: string, amount: int, eid: int)
    requires o < |net| && i < |ps|
    ensures var prev := Propagate(net, o, ps[..i], iface, amount, eid);
      var step := LinkToBranch(prev.net, o, ps[i], iface, amount, eid);
      Propagate(net, o, ps[..i + 1], iface, amount, eid)
        == if prev.status.Failure? then prev else NetOutcome(step.net, step.status, prev.calls + step.calls)
  {
    assert ps[..i + 1][..i] == ps[..i];
  }

  /** The first failed call ends the propagation: the later peers are never called. */
  lemma {:induction false} PropagateFailureSticks(net: Net, o: nat, ps: seq<int>, i: nat, iface: string, amount: int, eid: int)
    requires o < |net| && i <= |ps|
    requires Propagate(net, o, ps[..i], iface, amount, eid).status.Failure?
    ensures Propagate(net, o, ps, iface, amount, eid) == Propagate(net, o, ps[..i], iface, amount, eid)
    decreases |ps| - i
  {
    if i == |ps| {
      assert ps[..i] == ps;
    } else {
      PropagateExtend(net, o, ps, i, iface, amount, eid);
      PropagateFailureSticks(net, o, ps, i + 1, iface, amount, eid);
    }
  }

  // ---------------------------------------------------------------- balances

  /** One successful call adds the delta to the called peer and to no other branch. */
  lemma {:induction false} LinkBalances(net: Net, o: nat, p: int, iface: string, amount: int, eid: int)
    requires o < |net| && DistinctIds(net) && IsWrite(iface) && IndexOf(net, p) >= 0
    ensures var r := LinkToBranch(net, o, p, iface, amount, eid);
      && r.status == Success
      && forall k :: 0 <= k < |net| ==>
           r.net[k].balance == net[k].balance + (if net[k].id == p then Delta(iface, amount) else 0)
  {
  }

  /**
   * After a successful propagation every branch has received the delta once
   * per occurrence of its id in the peer list.
   */
  lemma {:induction false} PropagateBalances(net: Net, o: nat, ps: seq<int>, iface: string, amount: int, eid: int)
    requires o < |net| && DistinctIds(net) && IsWrite(iface) && Resolvable(net, ps)
    ensures var r := Propagate(net, o, ps, iface, amount, eid);
      && r.status == Success
      && forall k :: 0 <= k < |net| ==>
           r.net[k].balance == net[k].balance + multiset(ps)[net[k].id] * Delta(iface, amount)
    decreases |ps|
  {
    if ps != [] {
      var init, p := ps[..|ps| - 1], ps[|ps| - 1];
      ResolvableInit(net, ps);
      PropagateBalances(net, o, init, iface, amount, eid);
      var prev := Propagate(net, o, init, iface, amount, eid);
      SameShapeIndexOf(prev.net, net, p);
      assert DistinctIds(prev.net);
      LinkBalances(prev.net, o, p, iface, amount, eid);
      PropagateLast(net, o, ps, iface, amount, eid);
      PropagateBalancesStep(net, prev.net, Propagate(net, o, ps, iface, amount, eid).net, ps, Delta(iface, amount));
    }
  }

  /** The induction step of PropagateBalances, on the branch sequences alone. */
  lemma {:induction false} PropagateBalancesStep(net: Net, prev: Net, after: Net, ps: seq<int>, d: int)
    requires ps != [] && SameShape(prev, net) && |after| == |net|
    requires forall k :: 0 <= k < |net| ==> prev[k].balance == net[k].balance + multiset(ps[..|ps| - 1])[net[k].id] * d
    requires forall k :: 0 <= k < |prev| ==> after[k].balance == prev[k].balance + (if prev[k].id == ps[|ps| - 1] then d else 0)
    ensures forall k :: 0 <= k < |net| ==> after[k].balance == net[k].balance + multiset(ps)[net[k].id] * d
  {
    var init, p := ps[..|ps| - 1], ps[|ps| - 1];
    assert ps == init + [p];
    forall k | 0 <= k < |net| ensures after[k].balance == net[k].balance + multiset(ps)[net[k].id] * d {
      CountAfterAppend(init, p, net[k].id, d);
    }
  }

  /** Counting an id in a list extended by one element. */
  lemma {:induction false} CountAfterAppend(init: seq<int>, p: int, x: int, d: int)
    ensures multiset(init + [p])[x] * d == multiset(init)[x] * d + (if x == p then d else 0)
  {
    assert multiset(init + [p]) == multiset(init) + multiset{p};
    var m := multiset(init)[x];
    if x == p {
      assert multiset(init + [p])[x] == m + 1;
      assert (m + 1) * d == m * d + d;
    } else {
      assert multiset(init + [p])[x] == m;
    }
  }

  /**
   * A propagation that meets an unknown peer stops there: the operation
   * fails and only the peers listed before it have received the delta.
   */
  lemma {:induction false} PropagateStopsAtUnreachable(net: Net, o: nat, ps: seq<int>, j: nat, iface: string, amount: int, eid: int)
    requires o < |net| && DistinctIds(net) && IsWrite(iface)
    requires j < |ps| && Resolvable(net, ps[..j]) && IndexOf(net, ps[j]) < 0
    ensures var r := Propagate(net, o, ps, iface, amount, eid);
      && r.status == Failure(Unreachable(ps[j]))
      && forall k :: 0 <= k < |net| ==>
           r.net[k].balance == net[k].balance + multiset(ps[..j])[net[k].id] * Delta(iface, amount)
    decreases |ps|
  {
    var init := ps[..|ps| - 1];
    if j == |ps| - 1 {
      assert init == ps[..j];
      PropagateBalances(net, o, init, iface, amount, eid);
      var prev := Propagate(net, o, init, iface, amount, eid);
      SameShapeIndexOf(prev.net, net, ps[j]);
    } else {
      assert init[..j] == ps[..j] && init[j] == ps[j];
      PropagateStopsAtUnreachable(net, o, init, j, iface, amount, eid);
    }
  }

  // ---------------------------------------------------------------- clocks

  /** One call to a reachable peer succeeds, is recorded as one request from the origin, and moves the origin's clock forward. */
  lemma {:induction false} LinkCalls(net: Net, o: nat, p: int, iface: string, amount: int, eid: int)
    requires o < |net| && IsWrite(iface) && IndexOf(net, p) >= 0
    ensures var r := LinkToBranch(net, o, p, iface, amount, eid);
      && r.status == Success
      && r.calls == [PeerCall(p, PeerRequest(net[o], iface, amount, eid))]
      && r.net[o].clock > net[o].clock
  {
    var k := IndexOf(net, p);
    var d := PeerPath(net[k], eid, iface, amount, net[o].clock);
    var n1 := net[k := d.state];
    assert n1[o].clock >= net[o].clock;
  }

  /** One successful call: the peer stays well-clocked and the origin's clock passes the peer's. */
  lemma {:induction false} LinkClocks(net: Net, o: nat, p: int, iface: string, amount: int, eid: int)
    requires o < |net| && AllMonotone(net) && IsWrite(iface) && IndexOf(net, p) >= 0
    ensures var r := LinkToBranch(net, o, p, iface, amount, eid);
      && r.status == Success && AllMonotone(r.net)
      && r.calls == [PeerCall(p, PeerRequest(net[o], iface, amount, eid))]
      && r.net[o].clock > net[o].clock
      && r.net[IndexOf(net, p)].clock > net[o].clock
  {
    var k := IndexOf(net, p);
    var req := PeerRequest(net[o], iface, amount, eid);
    LinkCalls(net, o, p, iface, amount, eid);
    PeerPathMonotone(net[k], eid, iface, amount, req.clock);
    var d := PeerPath(net[k], eid, iface, amount, req.clock);
    var n1 := net[k := d.state];
    LoggedPhaseMonotone(n1[o], eid, iface, PropagateResponse, Some(d.state.clock));
    TickIsLamportRule(n1[o].clock, d.state.clock);
  }

  /**
   * The calls of a propagation: one per peer of `ps`, in list order, each the
   * same request from `sender` apart from its clock; the clocks strictly
   * increase, starting at `first`.
   */
  predicate CallsInOrder(cs: seq<PeerCall>, ps: seq<int>, iface: string, amount: int, sender: int, eid: int, first: int) {
    && |cs| == |ps|
    && (forall j :: 0 <= j < |ps| ==>
          cs[j].receiver == ps[j] && cs[j].request == BranchRequest(iface, amount, "branch", sender, eid, cs[j].request.clock))
    && (|ps| > 0 ==> cs[0].request.clock == first)
    && (forall j :: 0 <= j < |ps| - 1 ==> cs[j].request.clock < cs[j + 1].request.clock)
  }

  /** One more call, to the next peer and later than the last one, keeps the calls in order. */
  lemma {:induction false} CallsAppend(cs: seq<PeerCall>, init: seq<int>, iface: string, amount: int, sender: int, eid: int,
                                       first: int, c: PeerCall, ps: seq<int>)
    requires CallsInOrder(cs, init, iface, amount, sender, eid, first)
    requires c.request == BranchRequest(iface, amount, "branch", sender, eid, c.request.clock)
    requires init == [] ==> c.request.clock == first
    requires init != [] ==> cs[|init| - 1].request.clock < c.request.clock
    requires ps == init + [c.receiver]
    ensures CallsInOrder(cs + [c], ps, iface, amount, sender, eid, first)
  {
    var cs' := cs + [c];
    forall j | 0 <= j < |ps|
      ensures cs'[j].receiver == ps[j] && cs'[j].request == BranchRequest(iface, amount, "branch", sender, eid, cs'[j].request.clock)
    {
      if j < |init| { assert cs'[j] == cs[j] && ps[j] == init[j]; }
    }
    forall j | 0 <= j < |ps| - 1 ensures cs'[j].request.clock < cs'[j + 1].request.clock {
      if j + 1 < |init| { assert cs'[j] == cs[j] && cs'[j + 1] == cs[j + 1]; }
      else { assert cs'[j] == cs[|init| - 1]; }
    }
  }

  /** The induction step of PropagateCalls, on the outcomes alone. */
  lemma {:induction false} PropagateCallsStep(prev: NetOutcome, step: NetOutcome, r: NetOutcome, o: nat, init: seq<int>, ps: seq<int>,
                                              iface: string, amount: int, sender: int, eid: int, first: int)
    requires r == NetOutcome(step.net, step.status, prev.calls + step.calls) && ps != [] && init == ps[..|ps| - 1]
    requires o < |prev.net| && o < |step.net|
    requires CallsInOrder(prev.calls, init, iface, amount, sender, eid, first) && prev.net[o].clock >= first + |init|
    requires init != [] ==> prev.calls[|init| - 1].request.clock < prev.net[o].clock
    requires init == [] ==> prev.net[o].clock == first
    requires step.status == Success && step.net[o].clock > prev.net[o].clock
    requires step.calls == [PeerCall(ps[|ps| - 1], BranchRequest(iface, amount, "branch", sender, eid, prev.net[o].clock))]
    ensures && r.status == Success && CallsInOrder(r.calls, ps, iface, amount, sender, eid, first)
            && r.net[o].clock >= first + |ps| && r.calls[|ps| - 1].request.clock < r.net[o].clock
  {
    assert ps == init + [ps[|ps| - 1]];
    CallsAppend(prev.calls, init, iface, amount, sender, eid, first, step.calls[0], ps);
  }

  /**
   * The origin calls the peers in list order, each with its clock at that
   * moment, so the clocks it sends strictly increase; its own clock moves
   * past the last of them and by at least one per peer.
   */
  lemma {:induction false} PropagateCalls(net: Net, o: nat, ps: seq<int>, iface: string, amount: int, eid: int)
    requires o < |net| && IsWrite(iface) && Resolvable(net, ps)
    ensures var r := Propagate(net, o, ps, iface, amount, eid);
      && r.status == Success
      && CallsInOrder(r.calls, ps, iface, amount, net[o].id, eid, net[o].clock)
      && r.net[o].clock >= net[o].clock + |ps|
      && (|ps| > 0 ==> r.calls[|ps| - 1].request.clock < r.net[o].clock)
    decreases |ps|
  {
    if ps != [] {
      var init, p := ps[..|ps| - 1], ps[|ps| - 1];
      ResolvableInit(net, ps);
      PropagateCalls(net, o, init, iface, amount, eid);
      var prev := Propagate(net, o, init, iface, amount, eid);
      SameShapeIndexOf(prev.net, net, p);
      LinkCalls(prev.net, o, p, iface, amount, eid);
      PropagateLast(net, o, ps, iface, amount, eid);
      assert prev.net[o].id == net[o].id;
      PropagateCallsStep(prev, LinkToBranch(prev.net, o, p, iface, amount, eid), Propagate(net, o, ps, iface, amount, eid),
                         o, init, ps, iface, amount, net[o].id, eid, net[o].clock);
    }
  }

  /**
   * A propagation keeps every branch's clock discipline, also when it stops at
   * an unknown peer; to reachable peers it succeeds.
   */
  lemma {:induction false} PropagateMonotone(net: Net, o: nat, ps: seq<int>, iface: string, amount: int, eid: int)
    requires o < |net| && AllMonotone(net) && IsWrite(iface)
    ensures var r := Propagate(net, o, ps, iface, amount, eid);
      && AllMonotone(r.net)
      && (Resolvable(net, ps) ==> r.status == Success)
    decreases |ps|
  {
    if ps != [] {
      var init, p := ps[..|ps| - 1], ps[|ps| - 1];
      PropagateMonotone(net, o, init, iface, amount, eid);
      var prev := Propagate(net, o, init, iface, amount, eid);
      if Resolvable(net, ps) {
        ResolvableInit(net, ps);
        SameShapeIndexOf(prev.net, net, p);
      }
      if prev.status == Success {
        if IndexOf(prev.net, p) >= 0 {
          LinkClocks(prev.net, o, p, iface, amount, eid);
        }
        PropagateLast(net, o, ps, iface, amount, eid);
      }
    }
  }

  /** Serving any request keeps the clock discipline of every branch, whether it succeeds or not. */
  lemma {:induction false} MsgDeliveryMonotone(net: Net, t: nat, req: BranchRequest)
    requires t < |net| && AllMonotone(net)
    ensures AllMonotone(MsgDelivery(net, t, req).net)
  {
    if IsWrite(req.iface) && req.kind == "customer" {
      DepositOrWithdrawMonotone(net, t, req);
    } else if IsWrite(req.iface) && req.kind == "branch" {
      assert Monotone(net[t]);
      LoggedPhaseMonotone(net[t], req.eventId, req.iface, PropagateRequest, Some(req.clock));
      ApplyingPhaseMonotone(PropagateRequestPhase(net[t], req.eventId, req.iface, req.clock),
        req.eventId, req.iface, PropagateExecute, req.money);
    }
  }

  // ---------------------------------------------------------------- customer path

  /** The peer list of branch `o` names every other branch exactly once, and not `o` itself. */
  predicate PeersAreOthers(net: Net, o: nat)
    requires o < |net|
  {
    && Resolvable(net, net[o].branches)
    && multiset(net[o].branches)[net[o].id] == 0
    && forall k :: 0 <= k < |net| && k != o ==> multiset(net[o].branches)[net[k].id] == 1
  }

  predicate AllBalancesEqual(net: Net) {
    forall i, j :: 0 <= i < |net| && 0 <= j < |net| ==> net[i].balance == net[j].balance
  }

  /** The fully connected configuration the start-up code builds. */
  predicate AllPeersAreOthers(net: Net) {
    forall o :: 0 <= o < |net| ==> PeersAreOthers(net, o)
  }

  /** Ids and peer lists are all that the connection predicates look at. */
  lemma {:induction false} SameShapeConnections(a: Net, b: Net)
    requires SameShape(a, b)
    ensures DistinctIds(b) ==> DistinctIds(a)
    ensures AllPeersAreOthers(b) ==> AllPeersAreOthers(a)
  {
    if AllPeersAreOthers(b) {
      forall o | 0 <= o < |a| ensures PeersAreOthers(a, o) {
        assert PeersAreOthers(b, o);
        SameShapeResolvable(a, b, b[o].branches);
      }
    }
  }

  /** The request and execute phases at the origin, as the propagation loop finds them. */
  function AfterExecute(net: Net, o: nat, req: BranchRequest): (n: Net)
    requires o < |net|
    ensures SameShape(n, net)
  {
    var n1 := net[o := RequestPhase(net[o], req.eventId, req.iface, req.clock)];
    n1[o := ExecutePhase(n1[o], req.eventId, req.iface, req.money).state]
  }

  lemma {:induction false} OneMore(m: int, b: bool, d: int)
    ensures (m + (if b then 1 else 0)) * d == m * d + (if b then d else 0)
  {
  }

  /** The execute phase applies the delta at the origin only. */
  lemma {:induction false} AfterExecuteBalances(net: Net, o: nat, req: BranchRequest)
    requires o < |net| && IsWrite(req.iface)
    ensures var n := AfterExecute(net, o, req);
      forall k :: 0 <= k < |net| ==> n[k].balance == net[k].balance + (if k == o then Delta(req.iface, req.money) else 0)
  {
  }

  lemma {:induction false} AfterExecuteIsPrefix(net: Net, o: nat, req: BranchRequest)
    requires o < |net| && IsWrite(req.iface)
    ensures var r := DepositOrWithdraw(net, o, req);
      var p := Propagate(AfterExecute(net, o, req), o, net[o].branches, req.iface, req.money, req.eventId);
      && r.calls == p.calls && r.status == p.status
      && r.net == if p.status.Success? then p.net[o := ResponsePhase(p.net[o])] else p.net
  {
  }

  /**
   * A customer write whose peers all answer succeeds and changes each
   * branch's balance by the delta once per time the branch served it: once at
   * the origin, plus once per occurrence of its id in the origin's peer list.
   */
  lemma {:induction false} DepositOrWithdrawBalances(net: Net, o: nat, req: BranchRequest)
    requires o < |net| && DistinctIds(net) && IsWrite(req.iface) && Resolvable(net, net[o].branches)
    ensures var r := DepositOrWithdraw(net, o, req);
      && r.status == Success
      && forall k :: 0 <= k < |net| ==>
           r.net[k].balance == net[k].balance
             + (multiset(net[o].branches)[net[k].id] + (if k == o then 1 else 0)) * Delta(req.iface, req.money)
  {
    var ps, d := net[o].branches, Delta(req.iface, req.money);
    var n2 := AfterExecute(net, o, req);
    forall j | 0 <= j < |ps| ensures IndexOf(n2, ps[j]) >= 0 { SameShapeIndexOf(n2, net, ps[j]); }
    AfterExecuteBalances(net, o, req);
    assert DistinctIds(n2);
    PropagateBalances(n2, o, ps, req.iface, req.money, req.eventId);
    AfterExecuteIsPrefix(net, o, req);
    var p := Propagate(n2, o, ps, req.iface, req.money, req.eventId);
    var r := DepositOrWithdraw(net, o, req);
    assert r.net == p.net[o := ResponsePhase(p.net[o])];
    forall k | 0 <= k < |net|
      ensures r.net[k].balance == net[k].balance + (multiset(ps)[net[k].id] + (if k == o then 1 else 0)) * d
    {
      var m := multiset(ps)[n2[k].id];
      assert r.net[k].balance == p.net[k].balance;
      assert p.net[k].balance == n2[k].balance + m * d;
      OneMore(m, k == o, d);
    }
  }

  /**
   * Convergence: when the origin's peers are exactly the other branches,
   * a customer write moves every balance by the same delta, so balances that
   * were equal stay equal.
   */
  lemma {:induction false} Convergence(net: Net, o: nat, req: BranchRequest)
    requires o < |net| && DistinctIds(net) && IsWrite(req.iface) && PeersAreOthers(net, o)
    ensures var r := DepositOrWithdraw(net, o, req);
      && r.status == Success
      && (forall k :: 0 <= k < |net| ==> r.net[k].balance == net[k].balance + Delta(req.iface, req.money))
      && (AllBalancesEqual(net) ==> AllBalancesEqual(r.net))
  {
    DepositOrWithdrawBalances(net, o, req);
  }

  /**
   * Any customer request to a fully connected branch succeeds and moves every
   * balance by the request's delta; a query, or any other interface, moves none.
   */
  lemma {:induction false} CustomerRequestConverges(net: Net, t: nat, req: BranchRequest)
    requires t < |net| && DistinctIds(net) && PeersAreOthers(net, t) && req.kind == "customer"
    ensures var r := MsgDelivery(net, t, req);
      && r.status == Success
      && forall k :: 0 <= k < |net| ==> r.net[k].balance == net[k].balance + Delta(req.iface, req.money)
  {
    if IsWrite(req.iface) {
      Convergence(net, t, req);
    } else {
      NonWritesArePure(net, t, req);
    }
  }

  /**
   * No rollback: when the peer at position `j` cannot be reached, the write
   * fails with the origin's balance already changed and a branch that was not
   * called before that point unchanged, so balances that were equal diverge.
   */
  lemma {:induction false} PartialFailureDiverges(net: Net, o: nat, req: BranchRequest, j: nat, q: nat)
    requires o < |net| && q < |net| && DistinctIds(net) && IsWrite(req.iface)
    requires Delta(req.iface, req.money) != 0 && AllBalancesEqual(net)
    requires j < |net[o].branches| && Resolvable(net, net[o].branches[..j]) && IndexOf(net, net[o].branches[j]) < 0
    requires multiset(net[o].branches[..j])[net[o].id] == 0
    requires q != o && multiset(net[o].branches[..j])[net[q].id] == 0
    ensures var r := DepositOrWithdraw(net, o, req);
      && r.status == Failure(Unreachable(net[o].branches[j]))
      && r.net[o].balance == net[o].balance + Delta(req.iface, req.money)
      && r.net[q].balance == net[q].balance
      && r.net[o].balance != r.net[q].balance
  {
    var ps := net[o].branches;
    var n2 := AfterExecute(net, o, req);
    SameShapeResolvable(n2, net, ps[..j]);
    SameShapeIndexOf(n2, net, ps[j]);
    assert DistinctIds(n2);
    PropagateStopsAtUnreachable(n2, o, ps, j, req.iface, req.money, req.eventId);
    AfterExecuteIsPrefix(net, o, req);
    AfterExecuteBalances(net, o, req);
    var r := DepositOrWithdraw(net, o, req);
    assert r.net[o].balance == n2[o].balance + multiset(ps[..j])[n2[o].id] * Delta(req.iface, req.money);
    assert r.net[q].balance == n2[q].balance + multiset(ps[..j])[n2[q].id] * Delta(req.iface, req.money);
  }

  /** Request then execute at the origin keep every branch's clock discipline and tick the origin twice. */
  lemma {:induction false} AfterExecuteMonotone(net: Net, o: nat, req: BranchRequest)
    requires o < |net| && AllMonotone(net)
    ensures AllMonotone(AfterExecute(net, o, req)) && AfterExecute(net, o, req)[o].clock >= net[o].clock + 2
  {
    assert Monotone(net[o]);
    LoggedPhaseMonotone(net[o], req.eventId, req.iface, Phase.Request, Some(req.clock));
    var s1 := RequestPhase(net[o], req.eventId, req.iface, req.clock);
    ApplyingPhaseMonotone(s1, req.eventId, req.iface, Phase.Execute, req.money);
    LoggedPhaseMonotone(s1, req.eventId, req.iface, Phase.Execute, None);
    assert net[o := s1][o] == s1;
  }

  /**
   * A customer write keeps every branch's clock discipline, also when a peer
   * is unknown and the propagation stops; to reachable peers it succeeds.
   */
  lemma {:induction false} DepositOrWithdrawMonotone(net: Net, o: nat, req: BranchRequest)
    requires o < |net| && AllMonotone(net) && IsWrite(req.iface)
    ensures var r := DepositOrWithdraw(net, o, req);
      && AllMonotone(r.net)
      && (Resolvable(net, net[o].branches) ==> r.status == Success)
  {
    var ps := net[o].branches;
    var n2 := AfterExecute(net, o, req);
    AfterExecuteMonotone(net, o, req);
    if Resolvable(net, ps) {
      SameShapeResolvable(n2, net, ps);
    }
    PropagateMonotone(n2, o, ps, req.iface, req.money, req.eventId);
    AfterExecuteIsPrefix(net, o, req);
    var p := Propagate(n2, o, ps, req.iface, req.money, req.eventId);
    if p.status.Success? {
      assert Monotone(p.net[o]);
      ResponsePhaseMonotone(p.net[o]);
    }
  }

  /**
   * The origin's clock on the customer path: one tick for the request, one
   * for the execute, at least one per peer reply and one for the response,
   * so it advances by at least 3 + the number of peers. The calls go to the
   * peers in list order with strictly increasing clocks, the first carrying the
   * clock of the execute record.
   */
  lemma {:induction false} DepositOrWithdrawClocks(net: Net, o: nat, req: BranchRequest)
    requires o < |net| && IsWrite(req.iface) && Resolvable(net, net[o].branches)
    ensures var r := DepositOrWithdraw(net, o, req); var ps := net[o].branches;
      && r.status == Success
      && r.net[o].clock >= net[o].clock + 3 + |ps|
      && CallsInOrder(r.calls, ps, req.iface, req.money, net[o].id, req.eventId, AfterExecute(net, o, req)[o].clock)
  {
    var ps := net[o].branches;
    var n2 := AfterExecute(net, o, req);
    assert n2[o].clock >= net[o].clock + 2;
    SameShapeResolvable(n2, net, ps);
    PropagateCalls(n2, o, ps, req.iface, req.money, req.eventId);
    AfterExecuteIsPrefix(net, o, req);
  }
}
