/**
 * The merged trace of one customer write: what the debugger prints for its
 * event id once the write has completed. Records from every branch, merged
 * and sorted by clock, come out in causal order: request and execute at the
 * origin, then for each peer in list order its propagate-request and
 * propagate-execute followed by the origin's propagate-response.
 */
module Traces {
  import opened Events
  import opened Network
  import opened Debugger

  /** The three phases one propagation call logs: two at the peer, then one at the origin. */
  function PeerRound(): seq<Phase> {
    [PropagateRequest, PropagateExecute, PropagateResponse]
  }

  function Rounds(n: nat): (r: seq<Phase>)
    ensures |r| == 3 * n
  {
    if n == 0 then [] else Rounds(n - 1) + PeerRound()
  }

  /** request, execute, then (propagate_request, propagate_execute, propagate_response) once per peer. */
  function CanonicalPhases(peers: nat): (r: seq<Phase>)
    ensures |r| == 2 + 3 * peers
  {
    [Phase.Request, Phase.Execute] + Rounds(peers)
  }

  /** Record `i` of `ss` is named "{iface}_{phase}" for the `i`-th phase of `ph`. */
  predicate NamedBy(ss: seq<SubEvent>, iface: string, ph: seq<Phase>) {
    |ss| == |ph| && forall i :: 0 <= i < |ss| ==> ss[i].name == Label(iface, ph[i])
  }

  // ---------------------------------------------------------------- the records of a propagation

  /** The records a successful call to reachable peer `p` adds, read off the peer's path. */
  function LinkRecords(net: Net, o: nat, p: int, iface: string, amount: int, eid: int): (r: seq<SubEvent>)
    requires o < |net| && IndexOf(net, p) >= 0
    ensures |r| == 3
  {
    var e := Tick(net[IndexOf(net, p)].clock, Some(net[o].clock));
    [SubEvent(Label(iface, PropagateRequest), e), SubEvent(Label(iface, PropagateExecute), e + 1)]
      + [SubEvent(Label(iface, PropagateResponse), e + 2)]
  }

  /** The records the calls to `ps` add, in list order (an unreachable peer adds none). */
  function PropagateRecords(net: Net, o: nat, ps: seq<int>, iface: string, amount: int, eid: int): seq<SubEvent>
    requires o < |net|
    decreases |ps|
  {
    if ps == [] then []
    else
      var prev := Propagate(net, o, ps[..|ps| - 1], iface, amount, eid);
      var p := ps[|ps| - 1];
      PropagateRecords(net, o, ps[..|ps| - 1], iface, amount, eid)
        + (if IndexOf(prev.net, p) >= 0 then LinkRecords(prev.net, o, p, iface, amount, eid) else [])
  }

  // ---------------------------------------------------------------- gathered records

  /** Adding the same multiset to both sides of an equation keeps it. */
  lemma {:induction false} AddBoth<T>(a: multiset<T>, b: multiset<T>, t: multiset<T>, u: multiset<T>, m: multiset<T>)
    requires a + t == b + u
    ensures a + m + t == b + m + u
  {
    forall x ensures (a + m + t)[x] == (b + m + u)[x] {
      assert (a + t)[x] == (b + u)[x];
    }
  }

  /** Cancelling a common part: from `a + m == g + m + e` follows `a == g + e`. */
  lemma {:induction false} Cancel<T>(a: multiset<T>, g: multiset<T>, m: multiset<T>, e: multiset<T>)
    requires a + m == g + m + e
    ensures a == g + e
  {
    forall x ensures a[x] == (g + e)[x] {
      assert (a + m)[x] == (g + m + e)[x];
    }
  }

  /** Two successive additions, of `a` and then of `b`, are one addition of `a + b`. */
  lemma {:induction false} AddChain<T>(g0: multiset<T>, g1: multiset<T>, g2: multiset<T>, a: seq<T>, b: seq<T>, ab: seq<T>)
    requires g1 == g0 + multiset(a) && g2 == g1 + multiset(b) && ab == a + b
    ensures g2 == g0 + multiset(ab)
  {
    assert multiset(ab) == multiset(a) + multiset(b);
    forall x ensures g2[x] == (g0 + multiset(ab))[x] { }
  }

  /** Exchanging the last part of a list exchanges it in the list's multiset. */
  lemma {:induction false} SwapLast<T>(a: seq<T>, s: seq<T>, t: seq<T>)
    ensures multiset(a + s) + multiset(t) == multiset(a + t) + multiset(s)
  {
    assert multiset(a + s) == multiset(a) + multiset(s);
    assert multiset(a + t) == multiset(a) + multiset(t);
  }

  /** Replacing one branch's state replaces its tracked records in the gathered multiset. */
  lemma {:induction false} GatheredUpdate(net: Net, k: nat, s: BranchState, eid: int)
    requires k < |net|
    ensures multiset(Gathered(net[k := s], eid)) + multiset(Tracked(net[k], eid))
         == multiset(Gathered(net, eid)) + multiset(Tracked(s, eid))
    decreases |net|
  {
    var n := |net|;
    var upd, init := net[k := s], net[..n - 1];
    assert Gathered(upd, eid) == Gathered(upd[..n - 1], eid) + Tracked(upd[n - 1], eid);
    assert Gathered(net, eid) == Gathered(init, eid) + Tracked(net[n - 1], eid);
    if k == n - 1 {
      assert upd[..n - 1] == init;
      SwapLast(Gathered(init, eid), Tracked(s, eid), Tracked(net[k], eid));
    } else {
      assert upd[..n - 1] == init[k := s] && init[k] == net[k] && upd[n - 1] == net[n - 1];
      GatheredUpdate(init, k, s, eid);
      AddBoth(multiset(Gathered(init[k := s], eid)), multiset(Gathered(init, eid)),
              multiset(Tracked(net[k], eid)), multiset(Tracked(s, eid)), multiset(Tracked(net[n - 1], eid)));
    }
  }

  /** Extending one branch's list by `extra` adds `extra` to the gathered multiset. */
  lemma {:induction false} GatheredAppend(net: Net, k: nat, s: BranchState, eid: int, extra: seq<SubEvent>)
    requires k < |net| && Tracked(s, eid) == Tracked(net[k], eid) + extra
    ensures multiset(Gathered(net[k := s], eid)) == multiset(Gathered(net, eid)) + multiset(extra)
  {
    GatheredUpdate(net, k, s, eid);
    Cancel(multiset(Gathered(net[k := s], eid)), multiset(Gathered(net, eid)), multiset(Tracked(net[k], eid)), multiset(extra));
  }

  lemma {:induction false} GatheredOfFresh(net: Net, eid: int)
    requires forall k :: 0 <= k < |net| ==> Tracked(net[k], eid) == []
    ensures Gathered(net, eid) == []
    decreases |net|
  {
    if net != [] {
      var init := net[..|net| - 1];
      assert forall k :: 0 <= k < |init| ==> init[k] == net[k];
      GatheredOfFresh(init, eid);
    }
  }

  /** Some branch tracks every id that has gathered records. */
  lemma {:induction false} GatheredWitness(net: Net, eid: int) returns (i: nat)
    requires Gathered(net, eid) != []
    ensures i < |net| && eid in net[i].tracker
    decreases |net|
  {
    if eid in net[|net| - 1].tracker {
      i := |net| - 1;
    } else {
      var init := net[..|net| - 1];
      i := GatheredWitness(init, eid);
      assert init[i] == net[i];
    }
  }

  // ---------------------------------------------------------------- sequence helpers

  /** Two strictly increasing lists, the second starting after the first ends, concatenate to one. */
  lemma {:induction false} ConcatIncreasing(a: seq<SubEvent>, b: seq<SubEvent>)
    requires IncreasingSubs(a) && IncreasingSubs(b)
    requires a != [] && b != [] ==> a[|a| - 1].clock < b[0].clock
    ensures IncreasingSubs(a + b)
  {
    var ab := a + b;
    forall i, j | 0 <= i < j < |ab| ensures ab[i].clock < ab[j].clock {
      if j < |a| {
        assert ab[i] == a[i] && ab[j] == a[j];
      } else if i >= |a| {
        assert ab[i] == b[i - |a|] && ab[j] == b[j - |a|];
      } else {
        assert ab[i] == a[i] && ab[j] == b[j - |a|];
        assert i == |a| - 1 || a[i].clock < a[|a| - 1].clock;
        assert j == |a| || b[0].clock < b[j - |a|].clock;
      }
    }
  }

  lemma {:induction false} NamedByAppend(ss: seq<SubEvent>, iface: string, ph: seq<Phase>, xs: seq<SubEvent>, xph: seq<Phase>,
                                         all: seq<SubEvent>, allph: seq<Phase>)
    requires NamedBy(ss, iface, ph) && NamedBy(xs, iface, xph)
    requires all == ss + xs && allph == ph + xph
    ensures NamedBy(all, iface, allph)
  {
    forall i | 0 <= i < |all| ensures all[i].name == Label(iface, allph[i]) {
      if i >= |ss| {
        assert all[i] == xs[i - |ss|] && allph[i] == xph[i - |ss|];
      } else {
        assert all[i] == ss[i] && allph[i] == ph[i];
      }
    }
  }

  // ---------------------------------------------------------------- one call

  /** On the peer, propagate-request then propagate-execute append two consecutive records past the caller's clock. */
  lemma {:induction false} PeerPathTrace(s: BranchState, eid: int, iface: string, amount: int, c: int)
    requires s.clock >= 0 && IsWrite(iface) && c >= 0
    ensures var d := PeerPath(s, eid, iface, amount, c);
      var e := Tick(s.clock, Some(c));
      && e > c && d.status == Success && d.state.clock == e + 1
      && Tracked(d.state, eid) == Tracked(s, eid)
           + [SubEvent(Label(iface, PropagateRequest), e), SubEvent(Label(iface, PropagateExecute), e + 1)]
  {
    var s1 := PropagateRequestPhase(s, eid, iface, c);
    assert s1.clock == Tick(s.clock, Some(c));
  }

  /** The response phase at the origin, given a returned clock `r` at least its own, logs one record at `next`, one past it. */
  lemma {:induction false} ResponseTrace(t: BranchState, eid: int, iface: string, r: int, next: int)
    requires t.clock <= r && r > 0 && next == r + 1
    ensures var resp := PropagateResponsePhase(t, eid, iface, r);
      && resp.clock == next
      && Tracked(resp, eid) == Tracked(t, eid) + [SubEvent(Label(iface, PropagateResponse), next)]
  {
  }

  /**
   * Two successive state replacements, each appending to its branch's list,
   * add both appended lists to the gathered multiset.
   */
  lemma {:induction false} GatheredTwice(net: Net, k: nat, o: nat, d: BranchState, resp: BranchState, eid: int,
                                         xs: seq<SubEvent>, ys: seq<SubEvent>, after: Net, recs: seq<SubEvent>)
    requires k < |net| && o < |net|
    requires Tracked(d, eid) == Tracked(net[k], eid) + xs
    requires Tracked(resp, eid) == Tracked(net[k := d][o], eid) + ys
    requires after == net[k := d][o := resp] && recs == xs + ys
    ensures multiset(Gathered(after, eid)) == multiset(Gathered(net, eid)) + multiset(recs)
  {
    GatheredAppend(net, k, d, eid, xs);
    GatheredAppend(net[k := d], o, resp, eid, ys);
  }

  /**
   * One call to a reachable peer, written out: the peer at position `k`
   * takes its path to state `d`, appending the two records `xs` at clocks
   * `e` and `e + 1`; the origin's response phase then follows with `d`'s clock.
   */
  lemma {:induction false} LinkPeerSide(net: Net, o: nat, p: int, iface: string, amount: int, eid: int)
    returns (k: nat, e: int, d: BranchState, xs: seq<SubEvent>)
    requires o < |net| && IsWrite(iface) && IndexOf(net, p) >= 0
    requires net[IndexOf(net, p)].clock >= 0 && net[o].clock >= 0
    ensures k == IndexOf(net, p) && e == Tick(net[k].clock, Some(net[o].clock))
    ensures d == PeerPath(net[k], eid, iface, amount, net[o].clock).state
    ensures xs == [SubEvent(Label(iface, PropagateRequest), e), SubEvent(Label(iface, PropagateExecute), e + 1)]
    ensures e > net[o].clock && d.clock == e + 1
    ensures Tracked(d, eid) == Tracked(net[k], eid) + xs
    ensures LinkToBranch(net, o, p, iface, amount, eid).net
         == net[k := d][o := PropagateResponsePhase(net[k := d][o], eid, iface, d.clock)]
    ensures net[k := d][o].clock <= e + 1
    ensures LinkRecords(net, o, p, iface, amount, eid) == xs + [SubEvent(Label(iface, PropagateResponse), e + 2)]
  {
    k := IndexOf(net, p);
    e := Tick(net[k].clock, Some(net[o].clock));
    d := PeerPath(net[k], eid, iface, amount, net[o].clock).state;
    xs := [SubEvent(Label(iface, PropagateRequest), e), SubEvent(Label(iface, PropagateExecute), e + 1)];
    PeerPathTrace(net[k], eid, iface, amount, net[o].clock);
    LinkUnfolded(net, o, p, iface, amount, eid);
  }

  /** A call to a reachable peer whose path succeeds, with the definition's lets spelled out. */
  lemma {:induction false} LinkUnfolded(net: Net, o: nat, p: int, iface: string, amount: int, eid: int)
    requires o < |net| && IsWrite(iface) && IndexOf(net, p) >= 0
    ensures var k := IndexOf(net, p);
      var d := PeerPath(net[k], eid, iface, amount, net[o].clock).state;
      LinkToBranch(net, o, p, iface, amount, eid).net
        == net[k := d][o := PropagateResponsePhase(net[k := d][o], eid, iface, d.clock)]
  {
    var k := IndexOf(net, p);
    PeerPathSucceeds(net[k], eid, iface, amount, net[o].clock);
  }

  /** One propagation call adds exactly its three records to the gathered multiset. */
  lemma {:induction false} LinkGatheredRecords(net: Net, o: nat, p: int, iface: string, amount: int, eid: int)
    requires o < |net| && IsWrite(iface) && IndexOf(net, p) >= 0
    requires net[IndexOf(net, p)].clock >= 0 && net[o].clock >= 0
    ensures multiset(Gathered(LinkToBranch(net, o, p, iface, amount, eid).net, eid))
         == multiset(Gathered(net, eid)) + multiset(LinkRecords(net, o, p, iface, amount, eid))
  {
    var k, e, d, xs := LinkPeerSide(net, o, p, iface, amount, eid);
    var resp, ys := PropagateResponsePhase(net[k := d][o], eid, iface, e + 1), [SubEvent(Label(iface, PropagateResponse), e + 2)];
    ResponseTrace(net[k := d][o], eid, iface, e + 1, e + 2);
    GatheredTwice(net, k, o, d, resp, eid, xs, ys,
                  LinkToBranch(net, o, p, iface, amount, eid).net, LinkRecords(net, o, p, iface, amount, eid));
  }

  /** Three records one tick apart, starting past `c`, are strictly increasing and end at their last clock. */
  lemma {:induction false} ThreeTicks(xs: seq<SubEvent>, ys: seq<SubEvent>, r: seq<SubEvent>, e: int, c: int)
    requires |xs| == 2 && |ys| == 1 && r == xs + ys && c < e
    requires xs[0].clock == e && xs[1].clock == e + 1 && ys[0].clock == e + 2
    ensures IncreasingSubs(r) && c < r[0].clock && r[2].clock == e + 2
  {
    assert r[0] == xs[0] && r[1] == xs[1] && r[2] == ys[0];
  }

  /**
   * The three records of one call have strictly increasing clocks, past the
   * origin's clock before the call; the origin's clock after it is the last.
   */
  lemma {:induction false} LinkRecordClocks(net: Net, o: nat, p: int, iface: string, amount: int, eid: int)
    requires o < |net| && IsWrite(iface) && IndexOf(net, p) >= 0
    requires net[IndexOf(net, p)].clock >= 0 && net[o].clock >= 0
    ensures var xs := LinkRecords(net, o, p, iface, amount, eid);
      && IncreasingSubs(xs)
      && net[o].clock < xs[0].clock
      && xs[2].clock == LinkToBranch(net, o, p, iface, amount, eid).net[o].clock
  {
    var k, e, d, xs := LinkPeerSide(net, o, p, iface, amount, eid);
    var resp, ys := PropagateResponsePhase(net[k := d][o], eid, iface, e + 1), [SubEvent(Label(iface, PropagateResponse), e + 2)];
    ResponseTrace(net[k := d][o], eid, iface, e + 1, e + 2);
    ThreeTicks(xs, ys, LinkRecords(net, o, p, iface, amount, eid), e, net[o].clock);
  }

  // ---------------------------------------------------------------- all calls

  /**
   * The records of a propagation are those of the calls to `init`, the
   * peers before the last, then those of the call to the last peer `p`,
   * made in the state `prev` the earlier calls leave.
   */
  lemma {:induction false} RecordsLast(net: Net, o: nat, ps: seq<int>, iface: string, amount: int, eid: int)
    returns (init: seq<int>, p: int, prev: NetOutcome)
    requires o < |net| && Resolvable(net, ps) && ps != []
    ensures init == ps[..|ps| - 1] && p == ps[|ps| - 1] && prev == Propagate(net, o, init, iface, amount, eid)
    ensures Resolvable(net, init) && |prev.net| == |net| && IndexOf(prev.net, p) >= 0
    ensures PropagateRecords(net, o, ps, iface, amount, eid)
         == PropagateRecords(net, o, init, iface, amount, eid) + LinkRecords(prev.net, o, p, iface, amount, eid)
  {
    init, p := ps[..|ps| - 1], ps[|ps| - 1];
    prev := Propagate(net, o, init, iface, amount, eid);
    ResolvableInit(net, ps);
    SameShapeIndexOf(prev.net, net, p);
  }

  /**
   * The last call of a propagation, split off: the calls before it succeed,
   * keep every branch well-clocked and leave its peer reachable.
   */
  lemma {:induction false} PropagateStep(net: Net, o: nat, ps: seq<int>, iface: string, amount: int, eid: int)
    returns (init: seq<int>, p: int, prev: NetOutcome)
    requires o < |net| && AllMonotone(net) && IsWrite(iface) && Resolvable(net, ps) && ps != []
    ensures init == ps[..|ps| - 1] && p == ps[|ps| - 1] && prev == Propagate(net, o, init, iface, amount, eid)
    ensures Resolvable(net, init) && |prev.net| == |net| && IndexOf(prev.net, p) >= 0
    ensures prev.status == Success && AllMonotone(prev.net)
    ensures prev.net[IndexOf(prev.net, p)].clock >= 0 && prev.net[o].clock >= 0
    ensures Propagate(net, o, ps, iface, amount, eid).net == LinkToBranch(prev.net, o, p, iface, amount, eid).net
    ensures PropagateRecords(net, o, ps, iface, amount, eid)
         == PropagateRecords(net, o, init, iface, amount, eid) + LinkRecords(prev.net, o, p, iface, amount, eid)
  {
    init, p, prev := RecordsLast(net, o, ps, iface, amount, eid);
    PropagateMonotone(net, o, init, iface, amount, eid);
    assert Monotone(prev.net[IndexOf(prev.net, p)]) && Monotone(prev.net[o]);
    PropagateLast(net, o, ps, iface, amount, eid);
  }

  /** Every call adds its records: the gathered multiset grows by exactly the propagation's records. */
  lemma {:induction false} PropagateGathered(net: Net, o: nat, ps: seq<int>, iface: string, amount: int, eid: int)
    requires o < |net| && AllMonotone(net) && IsWrite(iface) && Resolvable(net, ps)
    ensures multiset(Gathered(Propagate(net, o, ps, iface, amount, eid).net, eid))
         == multiset(Gathered(net, eid)) + multiset(PropagateRecords(net, o, ps, iface, amount, eid))
    decreases |ps|
  {
    if ps != [] {
      var init, p, prev := PropagateStep(net, o, ps, iface, amount, eid);
      PropagateGathered(net, o, init, iface, amount, eid);
      LinkGatheredRecords(prev.net, o, p, iface, amount, eid);
      AddChain(multiset(Gathered(net, eid)), multiset(Gathered(prev.net, eid)),
               multiset(Gathered(Propagate(net, o, ps, iface, amount, eid).net, eid)),
               PropagateRecords(net, o, init, iface, amount, eid), LinkRecords(prev.net, o, p, iface, amount, eid),
               PropagateRecords(net, o, ps, iface, amount, eid));
    }
  }

  /** The induction step of PropagateRecordClocks, on the records and clocks alone. */
  lemma {:induction false} RecordClocksStep(xs: seq<SubEvent>, a: seq<SubEvent>, b: seq<SubEvent>, c0: int, mid: int, last: int)
    requires xs == a + b && |b| == 3
    requires IncreasingSubs(a) && (a != [] ==> c0 < a[0].clock && a[|a| - 1].clock == mid) && (a == [] ==> mid == c0)
    requires IncreasingSubs(b) && mid < b[0].clock && b[2].clock == last
    ensures IncreasingSubs(xs) && c0 < xs[0].clock && xs[|xs| - 1].clock == last
  {
    ConcatIncreasing(a, b);
    assert xs[|xs| - 1] == b[2];
    assert xs[0] == if a == [] then b[0] else a[0];
  }

  /**
   * The propagation's records have strictly increasing clocks, all past the
   * origin's clock before the calls, and the origin's clock afterwards is the
   * last of them.
   */
  lemma {:induction false} PropagateRecordClocks(net: Net, o: nat, ps: seq<int>, iface: string, amount: int, eid: int)
    requires o < |net| && AllMonotone(net) && IsWrite(iface) && Resolvable(net, ps)
    ensures var xs := PropagateRecords(net, o, ps, iface, amount, eid);
      && IncreasingSubs(xs)
      && (xs != [] ==> net[o].clock < xs[0].clock && xs[|xs| - 1].clock == Propagate(net, o, ps, iface, amount, eid).net[o].clock)
      && (xs == [] ==> Propagate(net, o, ps, iface, amount, eid).net[o].clock == net[o].clock)
    decreases |ps|
  {
    if ps != [] {
      var init, p, prev := PropagateStep(net, o, ps, iface, amount, eid);
      PropagateRecordClocks(net, o, init, iface, amount, eid);
      LinkRecordClocks(prev.net, o, p, iface, amount, eid);
      RecordClocksStep(PropagateRecords(net, o, ps, iface, amount, eid), PropagateRecords(net, o, init, iface, amount, eid),
                       LinkRecords(prev.net, o, p, iface, amount, eid), net[o].clock, prev.net[o].clock,
                       Propagate(net, o, ps, iface, amount, eid).net[o].clock);
    }
  }

  /** One call's records are named by one peer round. */
  lemma {:induction false} LinkNamed(net: Net, o: nat, p: int, iface: string, amount: int, eid: int)
    requires o < |net| && IndexOf(net, p) >= 0
    ensures NamedBy(LinkRecords(net, o, p, iface, amount, eid), iface, PeerRound())
  {
  }

  lemma {:induction false} RoundsLast(n: nat, m: nat)
    requires n == m + 1
    ensures Rounds(n) == Rounds(m) + PeerRound()
  {
  }

  /** The propagation's records are named by the peer rounds, one round per peer. */
  lemma {:induction false} PropagateNamed(net: Net, o: nat, ps: seq<int>, iface: string, amount: int, eid: int)
    requires o < |net| && Resolvable(net, ps)
    ensures NamedBy(PropagateRecords(net, o, ps, iface, amount, eid), iface, Rounds(|ps|))
    decreases |ps|
  {
    if ps != [] {
      var init, p, prev := RecordsLast(net, o, ps, iface, amount, eid);
      PropagateNamed(net, o, init, iface, amount, eid);
      LinkNamed(prev.net, o, p, iface, amount, eid);
      RoundsLast(|ps|, |init|);
      NamedByAppend(PropagateRecords(net, o, init, iface, amount, eid), iface, Rounds(|init|),
                    LinkRecords(prev.net, o, p, iface, amount, eid), PeerRound(),
                    PropagateRecords(net, o, ps, iface, amount, eid), Rounds(|ps|));
    }
  }

  // ---------------------------------------------------------------- whole write

  /** The records request and execute leave at the origin. */
  function ExecuteRecords(net: Net, o: nat, req: BranchRequest): (r: seq<SubEvent>)
    requires o < |net|
    ensures |r| == 2
  {
    var c := Tick(net[o].clock, Some(req.clock));
    [SubEvent(Label(req.iface, Phase.Request), c)] + [SubEvent(Label(req.iface, Phase.Execute), c + 1)]
  }

  /** The records of a whole customer write: request and execute at the origin, then the propagation's. */
  function WriteRecords(net: Net, o: nat, req: BranchRequest): seq<SubEvent>
    requires o < |net|
  {
    ExecuteRecords(net, o, req)
      + PropagateRecords(AfterExecute(net, o, req), o, net[o].branches, req.iface, req.money, req.eventId)
  }


  /** Logging one phase appends its record, at the new clock, to the branch's list for the id. */
  lemma {:induction false} LoggedTrace(s: BranchState, eid: int, iface: string, p: Phase, remote: Option<int>)
    ensures Tracked(LoggedPhase(s, eid, iface, p, remote), eid) == Tracked(s, eid) + [SubEvent(Label(iface, p), Tick(s.clock, remote))]
  {
  }

  /** Request then execute at the origin each append one record to its list for the id. */
  lemma {:induction false} ExecuteTracked(net: Net, o: nat, req: BranchRequest)
    requires o < |net|
    ensures var eid, c := req.eventId, Tick(net[o].clock, Some(req.clock));
      var s1 := RequestPhase(net[o], eid, req.iface, req.clock);
      var s2 := ExecutePhase(net[o := s1][o], eid, req.iface, req.money).state;
      && Tracked(s1, eid) == Tracked(net[o], eid) + [SubEvent(Label(req.iface, Phase.Request), c)]
      && Tracked(s2, eid) == Tracked(net[o := s1][o], eid) + [SubEvent(Label(req.iface, Phase.Execute), c + 1)]
  {
    var eid := req.eventId;
    var s1 := RequestPhase(net[o], eid, req.iface, req.clock);
    LoggedTrace(net[o], eid, req.iface, Phase.Request, Some(req.clock));
    assert net[o := s1][o] == s1;
    LoggedTrace(s1, eid, req.iface, Phase.Execute, None);
  }

  /** Request then execute at the origin add exactly their two records to the gathered multiset. */
  lemma {:induction false} ExecuteGathered(net: Net, o: nat, req: BranchRequest)
    requires o < |net|
    ensures multiset(Gathered(AfterExecute(net, o, req), req.eventId))
         == multiset(Gathered(net, req.eventId)) + multiset(ExecuteRecords(net, o, req))
  {
    var eid, c := req.eventId, Tick(net[o].clock, Some(req.clock));
    var s1 := RequestPhase(net[o], eid, req.iface, req.clock);
    var s2 := ExecutePhase(net[o := s1][o], eid, req.iface, req.money).state;
    ExecuteTracked(net, o, req);
    GatheredTwice(net, o, o, s1, s2, eid, [SubEvent(Label(req.iface, Phase.Request), c)],
                  [SubEvent(Label(req.iface, Phase.Execute), c + 1)], AfterExecute(net, o, req), ExecuteRecords(net, o, req));
  }

  /** Request then execute keep every branch monotone; their two records are one tick apart, past the old clock. */
  lemma {:induction false} ExecuteClocks(net: Net, o: nat, req: BranchRequest)
    requires o < |net| && AllMonotone(net) && IsWrite(req.iface)
    ensures var n := AfterExecute(net, o, req);
      var xs := ExecuteRecords(net, o, req);
      && AllMonotone(n)
      && net[o].clock < xs[0].clock && xs[0].clock < xs[1].clock && xs[1].clock == n[o].clock
  {
    var eid, iface := req.eventId, req.iface;
    var s1 := RequestPhase(net[o], eid, iface, req.clock);
    var s2 := ExecutePhase(s1, eid, iface, req.money).state;
    assert AfterExecute(net, o, req) == net[o := s1][o := s2];
    assert Monotone(net[o]);
    LoggedPhaseMonotone(net[o], eid, iface, Phase.Request, Some(req.clock));
    ApplyingPhaseMonotone(s1, eid, iface, Phase.Execute, req.money);
  }

  /** The origin's branches stay reachable after the execute phase, and the write's outcome is that of its propagation. */
  lemma {:induction false} WriteStep(net: Net, o: nat, req: BranchRequest)
    requires o < |net| && AllMonotone(net) && IsWrite(req.iface) && Resolvable(net, net[o].branches)
    ensures var n := AfterExecute(net, o, req);
      var p := Propagate(n, o, net[o].branches, req.iface, req.money, req.eventId);
      var r := DepositOrWithdraw(net, o, req);
      && AllMonotone(n) && Resolvable(n, net[o].branches)
      && p.status == Success && r.status == Success && r.net == p.net[o := ResponsePhase(p.net[o])]
  {
    var ps := net[o].branches;
    var n := AfterExecute(net, o, req);
    ExecuteClocks(net, o, req);
    assert Resolvable(n, ps) by {
      forall j | 0 <= j < |ps| ensures IndexOf(n, ps[j]) >= 0 { SameShapeIndexOf(n, net, ps[j]); }
    }
    PropagateMonotone(n, o, ps, req.iface, req.money, req.eventId);
    AfterExecuteIsPrefix(net, o, req);
  }

  /** A customer write with reachable peers succeeds and adds exactly its records to the gathered multiset. */
  lemma {:induction false} DepositOrWithdrawGathered(net: Net, o: nat, req: BranchRequest)
    requires o < |net| && AllMonotone(net) && IsWrite(req.iface) && Resolvable(net, net[o].branches)
    ensures var r := DepositOrWithdraw(net, o, req);
      && r.status == Success
      && multiset(Gathered(r.net, req.eventId)) == multiset(Gathered(net, req.eventId)) + multiset(WriteRecords(net, o, req))
  {
    var eid, ps := req.eventId, net[o].branches;
    var n := AfterExecute(net, o, req);
    var p := Propagate(n, o, ps, req.iface, req.money, eid);
    var r := DepositOrWithdraw(net, o, req);
    var e, q := ExecuteRecords(net, o, req), PropagateRecords(n, o, ps, req.iface, req.money, eid);
    var g0, g1, g2, g3 := multiset(Gathered(net, eid)), multiset(Gathered(n, eid)), multiset(Gathered(p.net, eid)), multiset(Gathered(r.net, eid));
    assert r.status == Success && r.net == p.net[o := ResponsePhase(p.net[o])] && AllMonotone(n) && Resolvable(n, ps) by {
      WriteStep(net, o, req);
    }
    assert g1 == g0 + multiset(e) by { ExecuteGathered(net, o, req); }
    assert g2 == g1 + multiset(q) by { PropagateGathered(n, o, ps, req.iface, req.money, eid); }
    assert g3 == g2 by {
      assert Tracked(ResponsePhase(p.net[o]), eid) == Tracked(p.net[o], eid) + [];
      GatheredAppend(p.net, o, ResponsePhase(p.net[o]), eid, []);
    }
    AddChain(g0, g1, g2, e, q, WriteRecords(net, o, req));
  }

  /** The clock argument of DepositOrWithdrawRecordClocks, on the records and clocks alone. */
  lemma {:induction false} WriteClocksStep(xs: seq<SubEvent>, head: seq<SubEvent>, tail: seq<SubEvent>,
                                           c0: int, mid: int, last: int, final: int)
    requires xs == head + tail && |head| == 2 && c0 < head[0].clock < head[1].clock && head[1].clock == mid
    requires IncreasingSubs(tail) && (tail != [] ==> mid < tail[0].clock && tail[|tail| - 1].clock == last)
    requires tail == [] ==> last == mid
    requires final == last + 1
    ensures IncreasingSubs(xs) && c0 < xs[0].clock && final == xs[|xs| - 1].clock + 1
  {
    assert IncreasingSubs(head);
    ConcatIncreasing(head, tail);
    assert xs[0] == head[0];
    assert xs[|xs| - 1] == if tail == [] then head[1] else tail[|tail| - 1];
  }

  /**
   * The write's records have strictly increasing clocks, the first past the
   * origin's old clock, and the origin ends one tick past the last (the
   * response phase logs nothing).
   */
  lemma {:induction false} DepositOrWithdrawRecordClocks(net: Net, o: nat, req: BranchRequest)
    requires o < |net| && AllMonotone(net) && IsWrite(req.iface) && Resolvable(net, net[o].branches)
    ensures var xs := WriteRecords(net, o, req);
      && IncreasingSubs(xs)
      && net[o].clock < xs[0].clock
      && DepositOrWithdraw(net, o, req).net[o].clock == xs[|xs| - 1].clock + 1
  {
    var n, ps := AfterExecute(net, o, req), net[o].branches;
    var p := Propagate(n, o, ps, req.iface, req.money, req.eventId);
    WriteStep(net, o, req);
    ExecuteClocks(net, o, req);
    PropagateRecordClocks(n, o, ps, req.iface, req.money, req.eventId);
    WriteClocksStep(WriteRecords(net, o, req), ExecuteRecords(net, o, req), PropagateRecords(n, o, ps, req.iface, req.money, req.eventId),
                    net[o].clock, n[o].clock, p.net[o].clock, DepositOrWithdraw(net, o, req).net[o].clock);
  }

  /** The write's records follow the canonical order of phases. */
  lemma {:induction false} DepositOrWithdrawNamed(net: Net, o: nat, req: BranchRequest)
    requires o < |net| && Resolvable(net, net[o].branches)
    ensures NamedBy(WriteRecords(net, o, req), req.iface, CanonicalPhases(|net[o].branches|))
  {
    var n, ps := AfterExecute(net, o, req), net[o].branches;
    SameShapeResolvable(n, net, ps);
    PropagateNamed(n, o, ps, req.iface, req.money, req.eventId);
    NamedByAppend(ExecuteRecords(net, o, req), req.iface, [Phase.Request, Phase.Execute],
                  PropagateRecords(n, o, ps, req.iface, req.money, req.eventId), Rounds(|ps|),
                  WriteRecords(net, o, req), CanonicalPhases(|ps|));
  }

  /**
   * When the records a cluster holds for `eid` are a rearrangement of a
   * strictly increasing list, the output lists `eid` and its entry is that list.
   */
  lemma {:induction false} EntryOfIncreasing(net: Net, eid: int, xs: seq<SubEvent>)
    requires AllMonotone(net) && xs != [] && IncreasingSubs(xs) && multiset(Gathered(net, eid)) == multiset(xs)
    ensures eid in MergedOrder(net)
    ensures var out := EventEntries(net);
      forall j :: 0 <= j < |out| && out[j].eventId == eid ==> out[j].records == xs
  {
    assert xs[0] in multiset(Gathered(net, eid));
    var i := GatheredWitness(net, eid);
    TrackedIdsAt(net, i, eid);
    assert forall k :: 0 <= k < |net| ==> TrackerMirrorsLog(net[k]) by {
      assert forall k :: 0 <= k < |net| ==> Monotone(net[k]);
    }
    MergedOrderIsTracked(net);
    var out := EventEntries(net);
    forall j | 0 <= j < |out| && out[j].eventId == eid ensures out[j].records == xs {
      SortedPermutationIsUnique(xs, out[j].records);
    }
  }

  /**
   * What the debugger prints for a fresh write's event id is exactly its
   * records in the canonical order: request, execute, then three records per
   * peer in the peer-list order, clocks strictly increasing.
   */
  lemma {:induction false} MergedTraceIsCanonical(net: Net, o: nat, req: BranchRequest)
    requires o < |net| && AllMonotone(net) && IsWrite(req.iface) && Resolvable(net, net[o].branches)
    requires forall k :: 0 <= k < |net| ==> Tracked(net[k], req.eventId) == []
    ensures var r := DepositOrWithdraw(net, o, req);
      var out := EventEntries(r.net);
      && r.status == Success
      && req.eventId in MergedOrder(r.net)
      && forall j :: 0 <= j < |out| && out[j].eventId == req.eventId ==>
           && out[j].records == WriteRecords(net, o, req)
           && NamedBy(out[j].records, req.iface, CanonicalPhases(|net[o].branches|))
           && IncreasingSubs(out[j].records)
  {
    var eid := req.eventId;
    var xs := WriteRecords(net, o, req);
    GatheredOfFresh(net, eid);
    DepositOrWithdrawGathered(net, o, req);
    DepositOrWithdrawRecordClocks(net, o, req);
    DepositOrWithdrawNamed(net, o, req);
    DepositOrWithdrawMonotone(net, o, req);
    var r := DepositOrWithdraw(net, o, req);
    assert multiset(Gathered(r.net, eid)) == multiset(xs);
    EntryOfIncreasing(r.net, eid, xs);
  }
}
