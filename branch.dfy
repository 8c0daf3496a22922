/**
 * The Branch servicer as a class whose fields the sub-events update in
 * place, and the cluster of branch servers through which `_link_to_branch`
 * reaches a peer. Every method leaves the fields as the corresponding
 * function of module Events (one branch) or Network (the whole cluster)
 * computes from the old fields, so the properties proved there hold of the
 * objects.
 */
module Branches {
  import opened Events
  import opened Network

  class Branch {
    /** The id and the peer list are set by the constructor and never reassigned. */
    const id: int
    const branches: seq<int>
    var localClock: int
    var balance: int
    var branchEvents: seq<Event>
    var eventTracker: map<int, seq<SubEvent>>

    /** The fields as a value. */
    function State(): BranchState
      reads this
    {
      BranchState(id, branches, localClock, balance, branchEvents, eventTracker)
    }

    /** Branch.__init__ (with Event.__init__ before it): clock 0, empty logs. */
    constructor (id: int, balance: int, branches: seq<int>)
      ensures State() == Initial(id, balance, branches)
    {
      this.id := id;
      this.branches := branches;
      localClock := 0;
      this.balance := balance;
      branchEvents := [];
      eventTracker := map[];
    }

    /** update_local_clock. */
    method UpdateLocalClock(remote: Option<int>)
      modifies this
      ensures State() == old(State()).(clock := Tick(old(localClock), remote))
    {
      if remote.Some? && remote.value != 0 {
        localClock := Max(localClock, remote.value) + 1;
      } else {
        localClock := localClock + 1;
      }
    }

    /** update_branch_balance; the ValueError becomes a failed status and the balance is left alone. */
    method UpdateBranchBalance(iface: string, amount: int) returns (status: Status)
      modifies this
      ensures var u := UpdateBalance(old(balance), iface, amount);
        && status == (if u.Ok? then Success else Failure(u.error))
        && State() == old(State()).(balance := if u.Ok? then u.value else old(balance))
    {
      if iface == "withdraw" {
        balance := balance - amount;
        status := Success;
      } else if iface == "deposit" {
        balance := balance + amount;
        status := Success;
      } else {
        status := Failure(InvalidInterface);
      }
    }

    /** log_event. */
    method LogEvent(e: Event, addToBranchEvents: bool)
      modifies this
      ensures State() == Events.LogEvent(old(State()), e, addToBranchEvents)
    {
      if addToBranchEvents {
        branchEvents := branchEvents + [e];
      }
      var previous := if e.id in eventTracker then eventTracker[e.id] else [];
      eventTracker := eventTracker[e.id := previous + [Untagged(e)]];
    }

    /** event_request_1. */
    method EventRequest(eid: int, iface: string, remote: int)
      modifies this
      ensures State() == RequestPhase(old(State()), eid, iface, remote)
    {
      UpdateLocalClock(Some(remote));
      LogEvent(Event(eid, Label(iface, Phase.Request), localClock), true);
    }

    /** event_propagate_request_3. */
    method EventPropagateRequest(eid: int, iface: string, remote: int)
      modifies this
      ensures State() == PropagateRequestPhase(old(State()), eid, iface, remote)
    {
      UpdateLocalClock(Some(remote));
      LogEvent(Event(eid, Label(iface, Phase.PropagateRequest), localClock), true);
    }

    /** event_propagate_execute_4. */
    method EventPropagateExecute(eid: int, iface: string, amount: int) returns (status: Status)
      modifies this
      ensures BranchOutcome(State(), status) == PropagateExecutePhase(old(State()), eid, iface, amount)
    {
      UpdateLocalClock(None);
      LogEvent(Event(eid, Label(iface, Phase.PropagateExecute), localClock), true);
      status := UpdateBranchBalance(iface, amount);
    }

    /** event_propagate_response_5. */
    method EventPropagateResponse(eid: int, iface: string, remote: int)
      modifies this
      ensures State() == PropagateResponsePhase(old(State()), eid, iface, remote)
    {
      UpdateLocalClock(Some(remote));
      LogEvent(Event(eid, Label(iface, Phase.PropagateResponse), localClock), true);
    }

    /** event_response_6. */
    method EventResponse()
      modifies this
      ensures State() == ResponsePhase(old(State()))
    {
      UpdateLocalClock(None);
    }

    /** deposit_or_withdraw_propagate: the peer path of a branch-to-branch write. */
    method DepositOrWithdrawPropagate(req: BranchRequest) returns (status: Status)
      modifies this
      ensures BranchOutcome(State(), status) == PeerPath(old(State()), req.eventId, req.iface, req.money, req.clock)
    {
      EventPropagateRequest(req.eventId, req.iface, req.clock);
      status := EventPropagateExecute(req.eventId, req.iface, req.money);
    }

    /**
     * `_link_to_branch`: the peer's stub runs its branch-typed MsgDelivery,
     * which is the peer path, and its reply clock goes into the
     * propagate-response sub-event here.
     */
    method LinkToBranch(c: Cluster, o: nat, receiver: int, iface: string, money: int, eid: int)
      returns (status: Status, calls: seq<PeerCall>)
      requires c.Valid() && o < |c.servers| && c.servers[o] == this
      modifies c.servers
      ensures NetOutcome(c.NetState(), status, calls) == Network.LinkToBranch(old(c.NetState()), o, receiver, iface, money, eid)
    {
      ghost var net := c.NetState();
      var k := IndexOf(c.NetState(), receiver);
      if k < 0 {
        status, calls := Failure(Unreachable(receiver)), [];
        return;
      }
      var req := BranchRequest(iface, money, "branch", id, eid, localClock);
      calls := [PeerCall(receiver, req)];
      var peer := c.servers[k];
      status := peer.DepositOrWithdrawPropagate(req);
      assert c.NetState() == net[k := peer.State()];
      if status.Failure? {
        return;
      }
      ghost var n1 := c.NetState();
      var reply := ReplyOf(peer.State(), req);
      EventPropagateResponse(reply.eventId, reply.iface, reply.clock);
      assert c.NetState() == n1[o := State()];
    }

    /** `_propagate_to_branches`: one link per peer, in list order; an exception ends the loop. */
    method PropagateToBranches(c: Cluster, o: nat, amount: int, iface: string, eid: int)
      returns (status: Status, calls: seq<PeerCall>)
      requires c.Valid() && o < |c.servers| && c.servers[o] == this
      modifies c.servers
      ensures NetOutcome(c.NetState(), status, calls) == Propagate(old(c.NetState()), o, branches, iface, amount, eid)
    {
      ghost var net := c.NetState();
      status, calls := Success, [];
      var i := 0;
      while i < |branches|
        invariant 0 <= i <= |branches|
        invariant NetOutcome(c.NetState(), Success, calls) == Propagate(net, o, branches[..i], iface, amount, eid)
      {
        PropagateExtend(net, o, branches, i, iface, amount, eid);
        var st, cs := LinkToBranch(c, o, branches[i], iface, amount, eid);
        calls := calls + cs;
        if st.Failure? {
          status := st;
          PropagateFailureSticks(net, o, branches, i + 1, iface, amount, eid);
          return;
        }
        i := i + 1;
      }
      assert branches[..i] == branches;
    }

    /** event_execute_2: tick, log, apply the delta, then propagate to the peers. */
    method EventExecute(c: Cluster, o: nat, eid: int, iface: string, amount: int)
      returns (status: Status, calls: seq<PeerCall>)
      requires c.Valid() && o < |c.servers| && c.servers[o] == this
      modifies c.servers
      ensures NetOutcome(c.NetState(), status, calls) == ExecuteAndPropagate(old(c.NetState()), o, eid, iface, amount)
    {
      ghost var net := c.NetState();
      UpdateLocalClock(None);
      LogEvent(Event(eid, Label(iface, Phase.Execute), localClock), true);
      status := UpdateBranchBalance(iface, amount);
      assert c.NetState() == net[o := State()];
      calls := [];
      if status.Failure? {
        return;
      }
      status, calls := PropagateToBranches(c, o, amount, iface, eid);
    }

    /** deposit_or_withdraw: the customer path. */
    method DepositOrWithdraw(c: Cluster, o: nat, req: BranchRequest) returns (status: Status, calls: seq<PeerCall>)
      requires c.Valid() && o < |c.servers| && c.servers[o] == this
      modifies c.servers
      ensures NetOutcome(c.NetState(), status, calls) == Network.DepositOrWithdraw(old(c.NetState()), o, req)
    {
      ghost var net := c.NetState();
      EventRequest(req.eventId, req.iface, req.clock);
      assert c.NetState() == net[o := State()];
      status, calls := EventExecute(c, o, req.eventId, req.iface, req.money);
      if status.Failure? {
        return;
      }
      ghost var n2 := c.NetState();
      EventResponse();
      assert c.NetState() == n2[o := State()];
    }

    /**
     * MsgDelivery: dispatch on interface and sender type, then reply with
     * this branch's balance and clock as they are afterwards.
     */
    method MsgDelivery(c: Cluster, o: nat, req: BranchRequest) returns (reply: Reply, status: Status, calls: seq<PeerCall>)
      requires c.Valid() && o < |c.servers| && c.servers[o] == this
      modifies c.servers
      ensures NetOutcome(c.NetState(), status, calls) == Network.MsgDelivery(old(c.NetState()), o, req)
      ensures reply == ReplyOf(State(), req)
    {
      ghost var net := c.NetState();
      status, calls := Success, [];
      if IsWrite(req.iface) {
        if req.kind == "customer" {
          status, calls := DepositOrWithdraw(c, o, req);
        } else if req.kind == "branch" {
          status := DepositOrWithdrawPropagate(req);
          assert c.NetState() == net[o := State()];
        }
      }
      reply := Reply(balance, id, req.eventId, req.iface, localClock);
    }
  }

  /**
   * The branch servers that are up, in start-up order: a call addressed to
   * an id reaches the first server with that id, and no server means the
   * call fails.
   */
  class Cluster {
    const servers: seq<Branch>

    /** No server object is listed twice. */
    predicate Valid() {
      forall i, j :: 0 <= i < j < |servers| ==> servers[i] != servers[j]
    }

    constructor (servers: seq<Branch>)
      ensures this.servers == servers
    {
      this.servers := servers;
    }

    /** The servers' states, in order. */
    function NetState(): (n: Net)
      reads servers
      ensures |n| == |servers|
      ensures forall k :: 0 <= k < |servers| ==> n[k] == servers[k].State()
    {
      seq(|servers|, k reads servers requires 0 <= k < |servers| => servers[k].State())
    }
  }
}
