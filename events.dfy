/**
 * The per-branch event machine: the Lamport clock rule, the balance update,
 * the dual log (plain branch log and per-event tracker) and the six phases of
 * an operation's lifecycle at one branch, as pure functions over a value
 * BranchState. The class Branches.Branch updates its fields exactly as these
 * functions say.
 */
module Events {

  datatype Option<T> = None | Some(value: T) {
    function GetOr(default: T): T {
      match this
      case Some(v) => v
      case None => default
    }
  }

  /** Why an operation stopped early. */
  datatype Error =
    | InvalidInterface      // update_branch_balance got neither "deposit" nor "withdraw"
    | Unreachable(id: int)  // no branch with this id answers at its address

  datatype Status = Success | Failure(error: Error)

  datatype Result<T> = Ok(value: T) | Err(error: Error)

  /**
   * A record's name, kept as the interface and the phase it is formatted
   * from; Text renders it the way the log prints it.
   */
  datatype Label = Label(iface: string, phase: Phase)

  /** An entry of a branch's plain log `branch_events`. */
  datatype Event = Event(id: int, name: Label, clock: int)

  /** An entry of `event_tracker[id]`: the same record with its id taken out. */
  datatype SubEvent = SubEvent(name: Label, clock: int)

  /** The whole mutable state of one branch, plus its two constants. */
  datatype BranchState = BranchState(
    id: int,
    branches: seq<int>,
    clock: int,
    balance: int,
    events: seq<Event>,
    tracker: map<int, seq<SubEvent>>)

  datatype BranchOutcome = BranchOutcome(state: BranchState, status: Status)

  /** The five phases that log a record; the sixth, the response, logs nothing. */
  datatype Phase = Request | Execute | PropagateRequest | PropagateExecute | PropagateResponse

  function Suffix(p: Phase): string {
    match p
    case Request => "request"
    case Execute => "execute"
    case PropagateRequest => "propagate_request"
    case PropagateExecute => "propagate_execute"
    case PropagateResponse => "propagate_response"
  }

  /** The printed name "{interface}_{phase}". */
  function Text(l: Label): string {
    l.iface + "_" + Suffix(l.phase)
  }

  /** Within one interface, the five phases print five different names. */
  lemma {:induction false} TextSeparatesPhases(iface: string, p: Phase, q: Phase)
    requires p != q
    ensures Text(Label(iface, p)) != Text(Label(iface, q))
  {
    var a, b := Text(Label(iface, p)), Text(Label(iface, q));
    var n := |iface| + 1;
    if |a| == |b| {
      assert a[n..] == Suffix(p) && b[n..] == Suffix(q);
    }
  }

  predicate IsWrite(iface: string) {
    iface == "deposit" || iface == "withdraw"
  }

  function Max(a: int, b: int): int {
    if a >= b then a else b
  }

  /** A freshly constructed branch: clock 0 and both logs empty. */
  function Initial(id: int, balance: int, branches: seq<int>): (s: BranchState)
    ensures s.id == id && s.balance == balance && s.branches == branches
    ensures s.clock == 0 && s.events == [] && s.tracker == map[]
  {
    BranchState(id, branches, 0, balance, [], map[])
  }

  // ---------------------------------------------------------------- clock

  /**
   * update_local_clock: a remote clock that is present and non-zero (the
   * source tests it for truth) gives max(local, remote) + 1, otherwise local + 1.
   * The new clock is one more than one of the two inputs and exceeds both.
   */
  function Tick(local: int, remote: Option<int>): (r: int)
    ensures r > local
    ensures remote.Some? && (remote.value != 0 || local >= 0) ==> r > remote.value
    ensures r - 1 == local || (remote.Some? && r - 1 == remote.value)
    ensures (remote.None? || remote.value == 0) ==> r == local + 1
  {
    if remote.Some? && remote.value != 0 then Max(local, remote.value) + 1 else local + 1
  }

  /** Clocks never go below zero, so the truth test on the remote clock agrees with Lamport's rule. */
  lemma {:induction false} TickIsLamportRule(local: int, remote: int)
    requires local >= 0
    ensures Tick(local, Some(remote)) == Max(local, remote) + 1
    ensures Tick(local, Some(remote)) > local && Tick(local, Some(remote)) > remote
  {
  }

  // ---------------------------------------------------------------- balance

  /** The signed effect of an interface on a balance. */
  function Delta(iface: string, amount: int): int {
    if iface == "deposit" then amount else if iface == "withdraw" then -amount else 0
  }

  /**
   * update_branch_balance: a write changes the balance by its delta; any other
   * interface is an error and leaves the balance as it was. There is no check
   * against a negative result.
   */
  function UpdateBalance(balance: int, iface: string, amount: int): (r: Result<int>)
    ensures r.Ok? <==> IsWrite(iface)
    ensures r.Ok? ==> r.value == balance + Delta(iface, amount)
    ensures r.Err? ==> r.error == InvalidInterface
  {
    if iface == "withdraw" then Ok(balance - amount)
    else if iface == "deposit" then Ok(balance + amount)
    else Err(InvalidInterface)
  }

  /** A withdraw undoes a deposit of the same amount. */
  lemma {:induction false} WithdrawUndoesDeposit(balance: int, amount: int)
    ensures UpdateBalance(balance, "deposit", amount).Ok?
    ensures UpdateBalance(UpdateBalance(balance, "deposit", amount).value, "withdraw", amount) == Ok(balance)
  {
  }

  /** Two writes applied in either order give the same balance, which is why replicas converge. */
  lemma {:induction false} UpdatesCommute(balance: int, i1: string, a1: int, i2: string, a2: int)
    requires IsWrite(i1) && IsWrite(i2)
    ensures UpdateBalance(UpdateBalance(balance, i1, a1).value, i2, a2)
         == UpdateBalance(UpdateBalance(balance, i2, a2).value, i1, a1)
  {
  }

  /** Nothing stops a withdraw from overdrawing the branch. */
  lemma {:induction false} WithdrawMayOverdraw()
    ensures UpdateBalance(0, "withdraw", 1) == Ok(-1)
  {
  }

  // ---------------------------------------------------------------- logs

  /** A defaultdict(list) lookup: the list stored for `eid`, or the empty list. */
  function Lookup(m: map<int, seq<SubEvent>>, eid: int): seq<SubEvent> {
    if eid in m then m[eid] else []
  }

  /** What the tracker holds for one event id. */
  function Tracked(s: BranchState, eid: int): seq<SubEvent> {
    Lookup(s.tracker, eid)
  }

  function Untagged(e: Event): SubEvent {
    SubEvent(e.name, e.clock)
  }

  /**
   * log_event: the record goes unchanged onto the plain log only when asked,
   * and always, without its id, onto the tracker list for its id; no other
   * tracker list and nothing else in the state changes.
   */
  function LogEvent(s: BranchState, e: Event, addToBranchEvents: bool): (r: BranchState)
    ensures r.events == if addToBranchEvents then s.events + [e] else s.events
    ensures Tracked(r, e.id) == Tracked(s, e.id) + [Untagged(e)]
    ensures forall k :: k != e.id ==> Tracked(r, k) == Tracked(s, k)
    ensures r.tracker.Keys == s.tracker.Keys + {e.id}
    ensures r.id == s.id && r.branches == s.branches && r.clock == s.clock && r.balance == s.balance
  {
    var es := if addToBranchEvents then s.events + [e] else s.events;
    s.(events := es, tracker := s.tracker[e.id := Tracked(s, e.id) + [Untagged(e)]])
  }

  // ---------------------------------------------------------------- phases

  /** The common shape of phases 1 to 5: tick once, then log "{interface}_{phase}" with the new clock. */
  function LoggedPhase(s: BranchState, eid: int, iface: string, p: Phase, remote: Option<int>): (r: BranchState)
    ensures r.clock == Tick(s.clock, remote)
    ensures r.events == s.events + [Event(eid, Label(iface, p), r.clock)]
    ensures Tracked(r, eid) == Tracked(s, eid) + [SubEvent(Label(iface, p), r.clock)]
    ensures forall k :: k != eid ==> Tracked(r, k) == Tracked(s, k)
    ensures r.tracker.Keys == s.tracker.Keys + {eid}
    ensures r.id == s.id && r.branches == s.branches && r.balance == s.balance
  {
    var t := s.(clock := Tick(s.clock, remote));
    LogEvent(t, Event(eid, Label(iface, p), t.clock), true)
  }

  /** The shape of the execute and propagate-execute phases: log first, then apply the delta. */
  function ApplyingPhase(s: BranchState, eid: int, iface: string, p: Phase, amount: int): (r: BranchOutcome)
    ensures var logged := LoggedPhase(s, eid, iface, p, None);
      && r.state.clock == s.clock + 1
      && r.state.events == logged.events
      && r.state.tracker == logged.tracker
      && r.state.id == s.id && r.state.branches == s.branches
      && (r.status == Success <==> IsWrite(iface))
      && (r.status.Failure? ==> r.status.error == InvalidInterface)
      && r.state.balance == s.balance + Delta(iface, amount)
  {
    var t := LoggedPhase(s, eid, iface, p, None);
    match UpdateBalance(t.balance, iface, amount)
    case Ok(b) => BranchOutcome(t.(balance := b), Success)
    case Err(e) => BranchOutcome(t, Failure(e))
  }

  /** event_request_1: the customer's clock is the remote clock. */
  function RequestPhase(s: BranchState, eid: int, iface: string, remote: int): (r: BranchState)
    ensures r.clock == Tick(s.clock, Some(remote))
    ensures r.events == s.events + [Event(eid, Label(iface, Request), r.clock)]
    ensures r.balance == s.balance
  {
    LoggedPhase(s, eid, iface, Request, Some(remote))
  }

  /** event_execute_2, without the fan-out to the peers (see Network.ExecuteAndPropagate). */
  function ExecutePhase(s: BranchState, eid: int, iface: string, amount: int): (r: BranchOutcome)
    ensures r.state.clock == s.clock + 1
    ensures r.state.events == s.events + [Event(eid, Label(iface, Execute), s.clock + 1)]
    ensures (r.status == Success <==> IsWrite(iface)) && r.state.balance == s.balance + Delta(iface, amount)
  {
    ApplyingPhase(s, eid, iface, Execute, amount)
  }

  /** event_propagate_request_3: the origin's clock is the remote clock. */
  function PropagateRequestPhase(s: BranchState, eid: int, iface: string, remote: int): (r: BranchState)
    ensures r.clock == Tick(s.clock, Some(remote))
    ensures r.events == s.events + [Event(eid, Label(iface, PropagateRequest), r.clock)]
    ensures r.balance == s.balance
  {
    LoggedPhase(s, eid, iface, PropagateRequest, Some(remote))
  }

  /** event_propagate_execute_4. */
  function PropagateExecutePhase(s: BranchState, eid: int, iface: string, amount: int): (r: BranchOutcome)
    ensures r.state.clock == s.clock + 1
    ensures r.state.events == s.events + [Event(eid, Label(iface, PropagateExecute), s.clock + 1)]
    ensures (r.status == Success <==> IsWrite(iface)) && r.state.balance == s.balance + Delta(iface, amount)
  {
    ApplyingPhase(s, eid, iface, PropagateExecute, amount)
  }

  /** event_propagate_response_5: the peer's returned clock is the remote clock. */
  function PropagateResponsePhase(s: BranchState, eid: int, iface: string, remote: int): (r: BranchState)
    ensures r.clock == Tick(s.clock, Some(remote))
    ensures r.events == s.events + [Event(eid, Label(iface, PropagateResponse), r.clock)]
    ensures r.balance == s.balance
  {
    LoggedPhase(s, eid, iface, PropagateResponse, Some(remote))
  }

  /** event_response_6: one local tick and no record in either log. */
  function ResponsePhase(s: BranchState): (r: BranchState)
    ensures r.clock == s.clock + 1
    ensures r == s.(clock := r.clock)
  {
    s.(clock := Tick(s.clock, None))
  }

  /** deposit_or_withdraw_propagate: the peer path, propagate-request then propagate-execute. */
  function PeerPath(s: BranchState, eid: int, iface: string, amount: int, remote: int): (r: BranchOutcome)
    ensures var e := Tick(s.clock, Some(remote));
      && r.state.clock == e + 1
      && r.state.events == s.events + [Event(eid, Label(iface, PropagateRequest), e), Event(eid, Label(iface, PropagateExecute), e + 1)]
    ensures (r.status == Success <==> IsWrite(iface)) && r.state.balance == s.balance + Delta(iface, amount)
  {
    PropagateExecutePhase(PropagateRequestPhase(s, eid, iface, remote), eid, iface, amount)
  }

  // ---------------------------------------------------------------- invariants

  predicate IncreasingEvents(es: seq<Event>) {
    forall i, j :: 0 <= i < j < |es| ==> es[i].clock < es[j].clock
  }

  predicate IncreasingSubs(ss: seq<SubEvent>) {
    forall i, j :: 0 <= i < j < |ss| ==> ss[i].clock < ss[j].clock
  }

  predicate EventsBelow(es: seq<Event>, c: int) {
    forall i :: 0 <= i < |es| ==> es[i].clock <= c
  }

  predicate SubsBelow(ss: seq<SubEvent>, c: int) {
    forall i :: 0 <= i < |ss| ==> ss[i].clock <= c
  }

  /** The records of the plain log for event `eid`, without their ids, in log order. */
  function RecordsFor(es: seq<Event>, eid: int): seq<SubEvent>
    decreases |es|
  {
    if es == [] then []
    else RecordsFor(es[..|es| - 1], eid) + (if es[|es| - 1].id == eid then [Untagged(es[|es| - 1])] else [])
  }

  /**
   * Every sub-event is logged to both logs at once, so the tracker is the
   * plain log grouped by event id, and no tracked id has an empty list.
   */
  ghost predicate TrackerMirrorsLog(s: BranchState) {
    forall eid {:trigger RecordsFor(s.events, eid)} ::
      && Tracked(s, eid) == RecordsFor(s.events, eid)
      && (eid in s.tracker <==> RecordsFor(s.events, eid) != [])
  }

  /**
   * The clock discipline of one branch: the clock is never negative, both
   * logs are strictly increasing in clock, no record is later than the clock,
   * and the two logs hold the same records.
   */
  ghost predicate Monotone(s: BranchState) {
    && s.clock >= 0
    && IncreasingEvents(s.events) && EventsBelow(s.events, s.clock)
    && (forall k :: k in s.tracker ==> IncreasingSubs(s.tracker[k]) && SubsBelow(s.tracker[k], s.clock))
    && TrackerMirrorsLog(s)
  }

  lemma {:induction false} InitialIsMonotone(id: int, balance: int, branches: seq<int>)
    ensures Monotone(Initial(id, balance, branches))
  {
  }

  /** Appending a record later than everything in a log keeps it strictly increasing. */
  lemma {:induction false} AppendLater(ss: seq<SubEvent>, x: SubEvent, c: int)
    requires IncreasingSubs(ss) && SubsBelow(ss, c) && x.clock > c
    ensures IncreasingSubs(ss + [x]) && SubsBelow(ss + [x], x.clock)
  {
    var t := ss + [x];
    forall i, j | 0 <= i < j < |t| ensures t[i].clock < t[j].clock {
      if j == |ss| {
        assert t[i] == ss[i];
      } else {
        assert t[i] == ss[i] && t[j] == ss[j];
      }
    }
    forall i | 0 <= i < |t| ensures t[i].clock <= x.clock {
      if i < |ss| { assert t[i] == ss[i]; }
    }
  }

  /**
   * Every logging phase ticks before it logs, so it keeps the clock
   * discipline: successive records of one branch have strictly increasing clocks.
   */
  lemma {:induction false} LoggedPhaseMonotone(s: BranchState, eid: int, iface: string, p: Phase, remote: Option<int>)
    requires Monotone(s)
    ensures Monotone(LoggedPhase(s, eid, iface, p, remote))
    ensures LoggedPhase(s, eid, iface, p, remote).clock > s.clock
  {
    var r := LoggedPhase(s, eid, iface, p, remote);
    var e := Event(eid, Label(iface, p), r.clock);
    assert IncreasingEvents(r.events) && EventsBelow(r.events, r.clock) by {
      forall i, j | 0 <= i < j < |r.events| ensures r.events[i].clock < r.events[j].clock {
        assert r.events[i] == s.events[i];
        if j < |s.events| { assert r.events[j] == s.events[j]; }
      }
      forall i | 0 <= i < |r.events| ensures r.events[i].clock <= r.clock {
        if i < |s.events| { assert r.events[i] == s.events[i]; }
      }
    }
    assert TrackerMirrorsLog(r) by {
      assert r.events[..|s.events|] == s.events;
      forall k ensures Tracked(r, k) == RecordsFor(r.events, k) && (k in r.tracker <==> RecordsFor(r.events, k) != []) {
        assert RecordsFor(r.events, k) == RecordsFor(s.events, k) + (if eid == k then [Untagged(e)] else []);
      }
    }
    forall k | k in r.tracker ensures IncreasingSubs(r.tracker[k]) && SubsBelow(r.tracker[k], r.clock) {
      assert r.tracker[k] == Tracked(r, k);
      if k == eid {
        AppendLater(Tracked(s, eid), SubEvent(Label(iface, p), r.clock), s.clock);
      } else {
        assert k in s.tracker && Tracked(s, k) == s.tracker[k];
        var ss := s.tracker[k];
        forall i | 0 <= i < |ss| ensures ss[i].clock <= r.clock { }
      }
    }
  }

  lemma {:induction false} ApplyingPhaseMonotone(s: BranchState, eid: int, iface: string, p: Phase, amount: int)
    requires Monotone(s)
    ensures Monotone(ApplyingPhase(s, eid, iface, p, amount).state)
  {
    LoggedPhaseMonotone(s, eid, iface, p, None);
    var r := ApplyingPhase(s, eid, iface, p, amount).state;
    var t := LoggedPhase(s, eid, iface, p, None);
    assert r == t.(balance := r.balance);
  }

  /** The response phase only ticks, which keeps the clock discipline. */
  lemma {:induction false} ResponsePhaseMonotone(s: BranchState)
    requires Monotone(s)
    ensures Monotone(ResponsePhase(s))
  {
    var r := ResponsePhase(s);
    forall i | 0 <= i < |r.events| ensures r.events[i].clock <= r.clock {
      assert s.events[i].clock <= s.clock;
    }
    forall k | k in r.tracker ensures SubsBelow(r.tracker[k], r.clock) {
      var ss := s.tracker[k];
      forall i | 0 <= i < |ss| ensures ss[i].clock <= r.clock {
        assert SubsBelow(ss, s.clock);
      }
    }
  }

  /** The peer path keeps the clock discipline and advances the clock past the origin's. */
  lemma {:induction false} PeerPathMonotone(s: BranchState, eid: int, iface: string, amount: int, remote: int)
    requires Monotone(s) && remote >= 0
    ensures var r := PeerPath(s, eid, iface, amount, remote).state;
      Monotone(r) && r.clock == Max(s.clock, remote) + 2 && r.clock > remote + 1
  {
    LoggedPhaseMonotone(s, eid, iface, PropagateRequest, Some(remote));
    ApplyingPhaseMonotone(PropagateRequestPhase(s, eid, iface, remote), eid, iface, PropagateExecute, amount);
  }
}
