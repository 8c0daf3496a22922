/**
 * The driver: split the input into branch and customer entries, start one
 * branch per branch entry with every other branch id as its peers, then
 * run the customers one after another and collect the debugger's output.
 */
module Startup {
  import opened Events
  import opened Network
  import opened Debugger
  import opened Branches
  import opened Customers

  /** One entry of the input: its "type", "id", and "balance" (a branch) or "events" (a customer). */
  datatype Process = Process(kind: string, id: int, balance: int, events: seq<CustomerEvent>)

  /** The entries of one type, in input order. */
  function OfKind(ps: seq<Process>, kind: string): (r: seq<Process>)
    ensures |r| <= |ps|
    ensures forall i :: 0 <= i < |r| ==> r[i].kind == kind
    decreases |ps|
  {
    if ps == [] then []
    else OfKind(ps[..|ps| - 1], kind) + (if ps[|ps| - 1].kind == kind then [ps[|ps| - 1]] else [])
  }

  /** Filtering keeps input order: it distributes over concatenation. */
  lemma {:induction false} OfKindAppend(a: seq<Process>, b: seq<Process>, kind: string)
    ensures OfKind(a + b, kind) == OfKind(a, kind) + OfKind(b, kind)
    decreases |b|
  {
    if b == [] {
      assert a + b == a;
    } else {
      var b' := b[..|b| - 1];
      assert (a + b)[..|a + b| - 1] == a + b';
      assert (a + b)[|a + b| - 1] == b[|b| - 1];
      OfKindAppend(a, b', kind);
    }
  }

  /** Filtering keeps every entry of the type as often as it occurs, and nothing else. */
  lemma {:induction false} OfKindCounts(ps: seq<Process>, kind: string)
    ensures forall p :: multiset(OfKind(ps, kind))[p] == if p.kind == kind then multiset(ps)[p] else 0
    decreases |ps|
  {
    if ps != [] {
      var init := ps[..|ps| - 1];
      OfKindCounts(init, kind);
      assert ps == init + [ps[|ps| - 1]];
    }
  }

  /** An entry is in the branch list exactly when it is a branch entry of the input, and likewise for customers; no entry is in both. */
  lemma {:induction false} PartitionByKind(ps: seq<Process>)
    ensures forall p :: p in OfKind(ps, "branch") <==> p in ps && p.kind == "branch"
    ensures forall p :: p in OfKind(ps, "customer") <==> p in ps && p.kind == "customer"
    ensures forall p :: !(p in OfKind(ps, "branch") && p in OfKind(ps, "customer"))
  {
    OfKindCounts(ps, "branch");
    OfKindCounts(ps, "customer");
    forall p ensures p in OfKind(ps, "branch") <==> p in ps && p.kind == "branch" {
      assert p in OfKind(ps, "branch") <==> multiset(OfKind(ps, "branch"))[p] > 0;
    }
    forall p ensures p in OfKind(ps, "customer") <==> p in ps && p.kind == "customer" {
      assert p in OfKind(ps, "customer") <==> multiset(OfKind(ps, "customer"))[p] > 0;
    }
  }

  /** The ids of the branch entries, as a set. */
  function Ids(ps: seq<Process>): set<int> {
    set p | p in ps :: p.id
  }

  /** A non-empty set has an element. */
  lemma {:induction false} SomeElement(s: set<int>) returns (y: int)
    requires s != {}
    ensures y in s
  {
    if forall z :: z !in s {
      assert false;
    }
    y :| y in s;
  }

  /**
   * `list(ids.difference({self}))`: every other id exactly once, in an order
   * the set leaves open, modelled as an arbitrary pick at each step.
   */
  method ListPeers(ids: set<int>, self: int) returns (ps: seq<int>)
    ensures forall x :: multiset(ps)[x] == if x in ids && x != self then 1 else 0
    ensures |ps| == |ids - {self}|
  {
    var rest := ids - {self};
    ps := [];
    while rest != {}
      invariant rest <= ids - {self}
      invariant forall x :: multiset(ps)[x] == if x in ids && x != self && x !in rest then 1 else 0
      invariant |ps| + |rest| == |ids - {self}|
      decreases rest
    {
      ghost var some := SomeElement(rest);
      var x :| x in rest;
      ps := ps + [x];
      rest := rest - {x};
    }
  }

  /** What start-up leaves in the cluster for the branch entries `bs`: one fresh branch per entry, peered with every other id. */
  ghost predicate StartedFrom(net: Net, bs: seq<Process>) {
    && |net| == |bs|
    && forall k :: 0 <= k < |net| ==>
         && net[k].id == bs[k].id && net[k].balance == bs[k].balance
         && net[k].clock == 0 && net[k].events == [] && net[k].tracker == map[]
         && forall x :: multiset(net[k].branches)[x] == if x in Ids(bs) && x != bs[k].id then 1 else 0
  }

  /** The peers start-up gives branch `o` are reachable, and every other branch is one of them exactly once. */
  lemma {:induction false} StartedPeersAreOthers(net: Net, bs: seq<Process>, o: nat)
    requires StartedFrom(net, bs) && o < |net|
    requires forall i, j :: 0 <= i < j < |bs| ==> bs[i].id != bs[j].id
    ensures PeersAreOthers(net, o)
  {
    var ps := net[o].branches;
    assert forall x :: multiset(ps)[x] == if x in Ids(bs) && x != bs[o].id then 1 else 0;
    forall j | 0 <= j < |ps| ensures IndexOf(net, ps[j]) >= 0 {
      assert ps[j] in multiset(ps);
      assert ps[j] in Ids(bs);
      var p :| p in bs && p.id == ps[j];
      var k :| 0 <= k < |bs| && bs[k] == p;
      assert net[k].id == ps[j];
    }
    forall k | 0 <= k < |net| && k != o ensures multiset(ps)[net[k].id] == 1 {
      assert bs[k] in bs;
      assert net[k].id in Ids(bs);
      assert bs[k].id != bs[o].id;
    }
  }

  /**
   * When the branch entries have distinct ids, start-up builds a fully
   * connected cluster with distinct ids whose branches all keep the clock
   * discipline; equal starting balances are equal balances.
   */
  lemma {:induction false} StartedIsConnected(net: Net, bs: seq<Process>)
    requires StartedFrom(net, bs)
    requires forall i, j :: 0 <= i < j < |bs| ==> bs[i].id != bs[j].id
    ensures DistinctIds(net) && AllPeersAreOthers(net) && AllMonotone(net)
    ensures (forall i, j :: 0 <= i < j < |bs| ==> bs[i].balance == bs[j].balance) ==> AllBalancesEqual(net)
  {
    forall o | 0 <= o < |net| ensures PeersAreOthers(net, o) {
      StartedPeersAreOthers(net, bs, o);
    }
    forall k | 0 <= k < |net| ensures Monotone(net[k]) {
      assert net[k] == Initial(net[k].id, net[k].balance, net[k].branches);
      InitialIsMonotone(net[k].id, net[k].balance, net[k].branches);
    }
  }

  /** The customers one after another, each from clock 0; one failing does not stop the next. */
  function ServeAll(net: Net, cs: seq<Process>): (r: Net)
    ensures SameShape(r, net)
    decreases |cs|
  {
    if cs == [] then net
    else
      var c := cs[|cs| - 1];
      Serve(ServeAll(net, cs[..|cs| - 1]), c.id, c.events, 0).net
  }

  lemma {:induction false} ServeAllExtend(net: Net, cs: seq<Process>, i: nat)
    requires i < |cs|
    ensures ServeAll(net, cs[..i + 1]) == Serve(ServeAll(net, cs[..i]), cs[i].id, cs[i].events, 0).net
  {
    assert cs[..i + 1][..i] == cs[..i];
  }

  /** The sum of the deltas of all the customers' events. */
  function AllDeltas(cs: seq<Process>): int
    decreases |cs|
  {
    if cs == [] then 0 else AllDeltas(cs[..|cs| - 1]) + TotalDelta(cs[|cs| - 1].events)
  }

  /**
   * In a fully connected cluster where each customer's branch exists, every
   * branch ends with its balance moved by the sum of all the customers'
   * deltas, balances that start equal end equal, and the clock discipline holds.
   */
  lemma {:induction false} ServeAllConverges(net: Net, cs: seq<Process>)
    requires DistinctIds(net) && AllPeersAreOthers(net)
    requires forall i :: 0 <= i < |cs| ==> IndexOf(net, cs[i].id) >= 0
    ensures var r := ServeAll(net, cs);
      && (forall k :: 0 <= k < |net| ==> r[k].balance == net[k].balance + AllDeltas(cs))
      && (AllBalancesEqual(net) ==> AllBalancesEqual(r))
      && (AllMonotone(net) ==> AllMonotone(r))
    decreases |cs|
  {
    if cs != [] {
      var init := cs[..|cs| - 1];
      var c := cs[|cs| - 1];
      assert forall i :: 0 <= i < |init| ==> init[i] == cs[i];
      ServeAllConverges(net, init);
      var prev := ServeAll(net, init);
      SameShapeConnections(prev, net);
      SameShapeIndexOf(prev, net, c.id);
      ServeConverges(prev, c.id, c.events, 0);
      if AllMonotone(net) {
        ServeMonotone(prev, c.id, c.events, 0);
      }
    }
  }

  /** The customers' runs keep every branch's clock discipline, in any cluster and whichever requests fail. */
  lemma {:induction false} ServeAllMonotone(net: Net, cs: seq<Process>)
    requires AllMonotone(net)
    ensures AllMonotone(ServeAll(net, cs))
    decreases |cs|
  {
    if cs != [] {
      var c := cs[|cs| - 1];
      ServeAllMonotone(net, cs[..|cs| - 1]);
      ServeMonotone(ServeAll(net, cs[..|cs| - 1]), c.id, c.events, 0);
    }
  }

  class Main {
    const inputData: seq<Process>
    var branchProcesses: seq<Process>
    var customerProcesses: seq<Process>

    /** Main.__init__: parse the input. */
    constructor (input: seq<Process>)
      ensures inputData == input
      ensures branchProcesses == OfKind(input, "branch") && customerProcesses == OfKind(input, "customer")
    {
      inputData := input;
      branchProcesses := [];
      customerProcesses := [];
      new;
      ParseProcesses();
    }

    /** parse_processes: append each entry to the list of its type. */
    method ParseProcesses()
      modifies this
      ensures branchProcesses == old(branchProcesses) + OfKind(inputData, "branch")
      ensures customerProcesses == old(customerProcesses) + OfKind(inputData, "customer")
    {
      var i := 0;
      while i < |inputData|
        invariant 0 <= i <= |inputData|
        invariant branchProcesses == old(branchProcesses) + OfKind(inputData[..i], "branch")
        invariant customerProcesses == old(customerProcesses) + OfKind(inputData[..i], "customer")
      {
        var process := inputData[i];
        assert inputData[..i + 1][..i] == inputData[..i];
        if process.kind == "customer" {
          customerProcesses := customerProcesses + [process];
        }
        if process.kind == "branch" {
          branchProcesses := branchProcesses + [process];
        }
        i := i + 1;
      }
      assert inputData[..i] == inputData;
    }

    /** The start-up loop of run: one branch per branch entry, peered with all other branch ids. */
    method StartBranches() returns (c: Cluster)
      ensures fresh(c) && c.Valid()
      ensures forall k :: 0 <= k < |c.servers| ==> fresh(c.servers[k])
      ensures StartedFrom(c.NetState(), branchProcesses)
    {
      var ids := Ids(branchProcesses);
      var objs: seq<Branch> := [];
      var i := 0;
      while i < |branchProcesses|
        invariant 0 <= i <= |branchProcesses|
        invariant |objs| == i
        invariant forall a, b :: 0 <= a < b < i ==> objs[a] != objs[b]
        invariant forall k :: 0 <= k < i ==> fresh(objs[k])
        invariant forall k :: 0 <= k < i ==>
          && objs[k].id == branchProcesses[k].id && objs[k].balance == branchProcesses[k].balance
          && objs[k].localClock == 0 && objs[k].branchEvents == [] && objs[k].eventTracker == map[]
          && forall x :: multiset(objs[k].branches)[x] == if x in ids && x != branchProcesses[k].id then 1 else 0
      {
        var p := branchProcesses[i];
        var peers := ListPeers(ids, p.id);
        var branch := new Branch(p.id, p.balance, peers);
        objs := objs + [branch];
        i := i + 1;
      }
      c := new Cluster(objs);
    }

    /** execute_customer_events, with the customers run one after another instead of on threads. */
    method ExecuteCustomerEvents(c: Cluster)
      requires c.Valid()
      modifies c.servers
      ensures c.NetState() == ServeAll(old(c.NetState()), customerProcesses)
    {
      ghost var net := c.NetState();
      var i := 0;
      while i < |customerProcesses|
        invariant 0 <= i <= |customerProcesses|
        invariant c.NetState() == ServeAll(net, customerProcesses[..i])
      {
        var p := customerProcesses[i];
        ServeAllExtend(net, customerProcesses, i);
        var customer := new Customer(p.id, p.events);
        var _, _ := customer.ExecuteEvents(c);
        i := i + 1;
      }
      assert customerProcesses[..i] == customerProcesses;
    }

    /** run, without the servers' threads, the logging and the sleeps: start, serve, report. */
    method Run() returns (c: Cluster, output: seq<Entry>, ghost start: Net)
      ensures StartedFrom(start, branchProcesses)
      ensures c.NetState() == ServeAll(start, customerProcesses)
      ensures output == OutputLogger(c.NetState())
    {
      c := StartBranches();
      start := c.NetState();
      ExecuteCustomerEvents(c);
      output := OutputLogger(c.NetState());
    }
  }
}
