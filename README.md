# Lamport clocks in a replicated bank: a Dafny model

The system is a toy bank. Several branch processes each hold a replica of one
balance. Customer processes send deposits, withdrawals and queries to the branch
that has their own id. The branch that takes a customer write:

- applies it;
- propagates it to every other branch, one remote call per peer;
- answers the customer.

Every process keeps a Lamport logical clock. Each branch records every logged
sub-event of an operation in two places:

- a plain log (`branch_events`);
- a per-event-id tracker (`event_tracker`).

The logged sub-events are request, execute, propagate-request,
propagate-execute and propagate-response. The response to the customer is a
sub-event too, but it only ticks the clock and records nothing. A debugger merges the trackers of all
branches by event id and sorts each merged list by clock.

The model has seven modules, one per file:

- `Events` (events.dfy): one branch as a value `BranchState`. It has:
  - the clock rule `Tick`, including the source's truth test on the remote clock;
  - the balance update, with its error case;
  - `log_event`;
  - the six sub-event phases, as pure functions;
  - the per-branch clock discipline `Monotone` and its preservation. The
    discipline also says that the tracker holds exactly the records of the plain
    log, grouped by id.
- `Network` (network.dfy): all branches as a sequence `Net`. It has:
  - `MsgDelivery`'s dispatch;
  - the customer path (`deposit_or_withdraw`) and its propagation loop;
  - the peer path (`deposit_or_withdraw_propagate`).

  A remote call to peer `p` runs `p`'s peer path on `p`'s entry in the
  sequence. An id with no branch makes the call fail, as a refused gRPC
  connection does. Proved here: convergence of balances, the no-rollback
  behaviour on a failed call, and the clocks of the calls sent.
- `Debugger` (debugger.dfy): the list `output_logger` prints. It has:
  - the branches' plain logs, in branch order;
  - then one entry per event id, in the key order of the merged dictionary,
    holding that id's records from all branches, stably sorted by clock.

  The order of a dictionary's keys is the order in which they were first added.
  Every `log_event` call also appends to the plain log. So a branch's key order
  is the order in which ids first appear in its plain log, and the merged order
  is the order of first appearance across all plain logs, in branch order.
- `Traces` (traces.dfy): what the debugger prints for one customer write. It is
  exactly the write's records, in the canonical causal order:
  - request and execute;
  - then, for each peer in list order, propagate-request, propagate-execute and
    propagate-response;
  - with strictly increasing clocks.
- `Branches` (branch.dfy): class `Branch`, whose fields the sub-event methods
  update in place, and class `Cluster`, the running branch servers.

  Every method is proved to leave the objects exactly as the matching `Events`
  or `Network` function says. This includes the propagation loop of
  `_propagate_to_branches` and its early exit on an exception.
- `Customers` (customer.dfy): class `Customer` and its `execute_events` loop,
  specified by the pure run `Serve`.
- `Startup` (main.dfy): class `Main`. It covers:
  - `parse_processes`;
  - the branch start-up loop of `run`, including the peer lists;
  - the customers run one after another;
  - the debugger's output list at the end.

## Model

| member | source | states |
|---|---|---|
| Events.Tick | branch.py:53-56 | the new clock exceeds the local clock; it exceeds the remote clock whenever the remote is present and either non-zero or the local clock is non-negative; it is one more than one of the two; an absent or zero remote gives exactly local + 1 (the truth test) |
| Events.TickIsLamportRule | branch.py:53-54 | for a non-negative local clock, the rule is Lamport's max(local, remote) + 1, and the result is past both clocks |
| Events.UpdateBalance | branch.py:37-44 | succeeds exactly for "deposit" and "withdraw" and then moves the balance by the signed amount; any other interface is the InvalidInterface error |
| Events.WithdrawUndoesDeposit | branch.py:37-44 | a withdraw of an amount undoes a deposit of the same amount |
| Events.UpdatesCommute | branch.py:37-44 | two writes applied in either order give the same balance |
| Events.WithdrawMayOverdraw | branch.py:39-40 | nothing prevents a negative balance |
| Events.LogEvent | branch.py:58-69 | the record joins the plain log only when asked; it always joins, without its id, the end of the tracker list for its id; no other list and no other field changes |
| Events.LoggedPhase | branch.py:85-87 | a logging sub-event ticks, then appends one record stamped with the new clock to both logs; the tracker's keys gain exactly that event id |
| Events.ApplyingPhase | branch.py:99-104 | the execute sub-events tick once, log, then change the balance; the status is success exactly for a write, and the logged record is the same either way |
| Events.ResponsePhase | branch.py:153-159 | the response sub-event ticks once and logs nothing |
| Events.RequestPhase | branch.py:74-87 | the request sub-event merges the sender's clock by the clock rule, logs one request record at the new clock, and leaves the balance alone |
| Events.ExecutePhase | branch.py:89-104 | the execute sub-event ticks once and logs an execute record at that clock; it succeeds exactly for a write, which moves the balance by its delta |
| Events.PropagateRequestPhase | branch.py:107-119 | the peer merges the origin's clock, logs one propagate-request record at the new clock, and leaves the balance alone |
| Events.PropagateExecutePhase | branch.py:121-136 | the peer ticks once and logs a propagate-execute record at that clock; it succeeds exactly for a write, which moves the balance by its delta |
| Events.PropagateResponsePhase | branch.py:138-151 | the origin merges the peer's reply clock, logs one propagate-response record at the new clock, and leaves the balance alone |
| Events.PeerPath | branch.py:273-288 | the peer logs propagate-request at the merged clock and propagate-execute one tick later, ends at that clock, succeeds exactly for a write and moves the balance by its delta |
| Events.TextSeparatesPhases | branch.py:86 | within one interface, the five logged sub-events print five different names |
| Events.InitialIsMonotone | branch.py:163-179 | a freshly built branch satisfies the clock discipline, with both logs empty and so in step |
| Events.LoggedPhaseMonotone | branch.py:46-69 | every logging sub-event keeps both logs strictly increasing in clock and no later than the clock, keeps the tracker equal to the plain log grouped by id, and advances the clock |
| Events.ApplyingPhaseMonotone | branch.py:131-136 | the execute sub-events keep the clock discipline, logs in step included |
| Events.ResponsePhaseMonotone | branch.py:159 | the response sub-event keeps the clock discipline |
| Events.PeerPathMonotone | branch.py:273-288 | the peer path keeps the clock discipline and leaves the peer's clock at max(own, origin's) + 2 |
| Network.IndexOf | branch.py:217 | address resolution gives the first branch with the id, or -1 exactly when no branch has it |
| Network.LinkToBranch | branch.py:207-234 | one call to a peer sends at most one request, exactly one when it succeeds; it fails as unreachable exactly when no branch has the peer's id; ids and peer lists stay as they were |
| Network.Propagate | branch.py:236-252 | the loop sends at most one request per peer, and exactly one per peer when it succeeds; ids and peer lists stay as they were |
| Network.ExecuteAndPropagate | branch.py:89-105 | the execute sub-event followed by the propagation; on success one request went to each peer |
| Network.DepositOrWithdraw | branch.py:254-271 | the customer path; on success one request went to each peer |
| Network.MsgDelivery | branch.py:181-205 | a successful customer write sends one request to each peer of the serving branch; any request not from a customer sends none |
| Network.NonWritesArePure | branch.py:189-205 | a query, any other interface, or a write from an unknown sender type changes nothing; the reply carries the branch's balance and clock |
| Network.PeerPathSucceeds | branch.py:273-288 | a branch-to-branch write always succeeds and moves the peer's balance by the delta |
| Network.NoInvalidInterface | branch.py:189-193 | MsgDelivery never raises the invalid-interface error, because it dispatches only writes |
| Network.PropagateNeverInvalid | branch.py:244-252 | the propagation of a write never fails with the invalid-interface error |
| Network.PropagateExtend | branch.py:244-252 | the propagation over the first i + 1 peers is the one over the first i, followed by the call to peer i unless an earlier call failed |
| Network.PropagateFailureSticks | branch.py:244-252 | after the first failed call, no later peer is called and nothing else changes |
| Network.LinkBalances | branch.py:217-234 | one call to a reachable peer succeeds and adds the delta to that peer only |
| Network.PropagateBalances | branch.py:244-252 | after propagating to reachable peers, each branch got the delta once per occurrence of its id in the peer list |
| Network.PropagateStopsAtUnreachable | branch.py:244-252 | an unreachable peer at position j fails the propagation with that id; only the peers before j got the delta |
| Network.LinkClocks | branch.py:217-234 | one call sends the origin's current clock; the origin's clock rises; the peer's clock passes the origin's old clock; both stay well clocked |
| Network.PropagateCalls | branch.py:244-252 | the calls go to the peers in list order with strictly increasing clocks, the first being the origin's clock; the origin's clock grows by at least one per peer and passes the last clock sent |
| Network.PropagateMonotone | branch.py:244-252 | the propagation keeps every branch's clock discipline, also when it stops at an unknown peer; when every peer is known it succeeds |
| Network.MsgDeliveryMonotone | branch.py:189-205 | serving any request keeps every branch's clock discipline, whether it succeeds or fails at an unknown peer |
| Network.AfterExecuteIsPrefix | branch.py:254-271 | the customer path is request, execute, then the propagation, then a response tick only on success |
| Network.DepositOrWithdrawBalances | branch.py:254-271 | a customer write succeeds; each branch's balance moves by the delta once for each time it served the write (at the origin, and for each occurrence in the peer list) |
| Network.Convergence | branch.py:254-271 | when the peers are exactly the other branches, every balance moves by the same delta, so equal balances stay equal |
| Network.CustomerRequestConverges | branch.py:189-205 | any customer request at a fully connected branch succeeds and moves every balance by its delta (a query by none) |
| Network.PartialFailureDiverges | branch.py:244-271 | no rollback: a failed call leaves the origin changed and a branch not yet called unchanged, so equal balances diverge |
| Network.AfterExecuteMonotone | branch.py:85-101 | request then execute keep the clock discipline and tick the origin at least twice |
| Network.DepositOrWithdrawMonotone | branch.py:254-271 | a customer write keeps every branch's clock discipline, also when a peer is unknown and the propagation stops; when every peer is known it succeeds |
| Network.DepositOrWithdrawClocks | branch.py:254-271 | the origin's clock grows by at least 3 + the number of peers; the calls are in peer order with increasing clocks, starting from the execute record's clock |
| Network.SameShapeConnections | main.py:75-81 | distinct ids and full connection depend only on ids and peer lists, which no operation changes |
| Debugger.Absorb | branch.py:309-310 | adding one branch's tracker to the dictionary appends, for every id, that branch's list to the list already held; folded over the branches by Debugger.Collect, this gives the reference concatenation Gathered |
| Debugger.Collect | branch.py:307-310 | the accumulated dictionary holds, for each id, the concatenation of the branches' lists in branch order; its keys are exactly the tracked ids |
| Debugger.Insert | branch.py:312 | one insertion step keeps the elements and adds the new one |
| Debugger.InsertKeepsSorted | branch.py:312 | inserting into a clock-sorted list keeps it sorted |
| Debugger.SortByClock | branch.py:312 | the sort is a clock-sorted permutation of its input |
| Debugger.SortSortedIsIdentity | branch.py:312 | sorting a sorted list changes nothing |
| Debugger.SortedPermutationIsUnique | branch.py:312 | a list with strictly increasing clocks is the only clock-sorted arrangement of its elements |
| Debugger.SortRecoversIncreasing | branch.py:312 | any rearrangement of a strictly increasing list sorts back to it |
| Debugger.InsertAtClock | branch.py:312 | one insertion step puts the new record behind every record with the same clock |
| Debugger.SortIsStable | branch.py:312 | the sort is stable: for every clock, the records with that clock stay in input order |
| Debugger.StableSortIsUnique | branch.py:312 | two clock-sorted lists that agree, clock by clock, on the records and their order are equal |
| Debugger.StableSortedIsSort | branch.py:312 | any clock-sorted list that keeps the input order of each clock's records is the sort's result, so sortedness and stability determine it |
| Debugger.AddNewMembers | branch.py:307-310 | adding keys to a dictionary's order keeps the old keys first and in place, contains exactly the old and the added keys, and never lists a key twice |
| Debugger.AddNewAppend | branch.py:307-310 | adding one list of keys is adding its first half, then its second half |
| Debugger.AddNewDeduplicated | branch.py:307-310 | adding a dictionary's key order to another is adding the keys of every insertion |
| Debugger.IdsOfRecords | branch.py:58-69 | an id occurs in a plain log exactly when the log holds records for it |
| Debugger.KeyOrderIsKeys | branch.py:58-69 | with the logs in step, a branch's key order lists exactly its tracker's keys, each once |
| Debugger.MergedOrder | branch.py:307-310 | the merged dictionary's key order lists no id twice |
| Debugger.MergedOrderIsFirstAppearance | branch.py:307-310 | the merged key order is the order in which ids first appear across the plain logs, in branch order |
| Debugger.MergedOrderIsTracked | branch.py:307-313 | with every branch's logs in step, the merged key order lists exactly the tracked ids |
| Debugger.EventEntries | branch.py:307-313 | one entry per id, in the merged key order; each entry holds a clock-sorted permutation of all branches' records for that id, stable for every clock |
| Debugger.OutputLogger | branch.py:302-315 | the output list is each branch's id and plain log, in branch order, followed by the event entries, whose order and contents Debugger.EventEntries and Debugger.MergedOrderIsTracked state |
| Traces.LinkGatheredRecords | branch.py:217-234 | one call adds exactly three records for the event id, across all branches |
| Traces.LinkRecordClocks | branch.py:217-234 | those three records have strictly increasing clocks past the origin's, and the last is the origin's new clock |
| Traces.PropagateGathered | branch.py:244-252 | the propagation adds exactly its records for the event id |
| Traces.PropagateRecordClocks | branch.py:244-252 | the propagation's records have strictly increasing clocks past the origin's, and the origin ends at the last one |
| Traces.PropagateNamed | branch.py:244-252 | the propagation's records are named by one propagate-request, propagate-execute, propagate-response round per peer |
| Traces.ExecuteGathered | branch.py:85-101 | request and execute add exactly their two records |
| Traces.ExecuteClocks | branch.py:85-101 | those two records are one tick apart, past the old clock, and the second is the new clock |
| Traces.DepositOrWithdrawGathered | branch.py:254-271 | a customer write adds exactly its records for the event id |
| Traces.DepositOrWithdrawRecordClocks | branch.py:254-271 | the write's records have strictly increasing clocks; the origin ends one tick past the last, because the response logs nothing |
| Traces.DepositOrWithdrawNamed | branch.py:254-271 | the write's records follow the canonical phase order for its number of peers |
| Traces.EntryOfIncreasing | branch.py:307-313 | when the records gathered for an id are a rearrangement of a strictly increasing list, the output lists the id, and its entry is that list |
| Traces.MergedTraceIsCanonical | test_input_output.py:66-88 | for a fresh event id, the write succeeds, the output lists the id, and its entry is exactly the write's records, in canonical order, with strictly increasing clocks |
| Branches.Branch.constructor | branch.py:163-179 | a new branch is the initial state: clock 0, empty logs |
| Branches.Branch.UpdateLocalClock | branch.py:46-56 | the clock becomes Tick of the old clock; nothing else changes |
| Branches.Branch.UpdateBranchBalance | branch.py:37-44 | balance and status as UpdateBalance says; on the error the balance is unchanged |
| Branches.Branch.LogEvent | branch.py:58-69 | the fields become the LogEvent function of the old fields |
| Branches.Branch.EventRequest | branch.py:74-87 | the fields become the request phase of the old fields |
| Branches.Branch.EventPropagateRequest | branch.py:107-119 | the fields become the propagate-request phase of the old fields |
| Branches.Branch.EventPropagateExecute | branch.py:121-136 | fields and status are the propagate-execute phase of the old fields |
| Branches.Branch.EventPropagateResponse | branch.py:138-151 | the fields become the propagate-response phase of the old fields |
| Branches.Branch.EventResponse | branch.py:153-159 | the fields become the response phase of the old fields |
| Branches.Branch.DepositOrWithdrawPropagate | branch.py:273-288 | fields and status are the peer path of the old fields |
| Branches.Branch.LinkToBranch | branch.py:207-234 | the whole cluster, status and calls sent are Network.LinkToBranch of the old cluster, including when the peer is the origin itself |
| Branches.Branch.PropagateToBranches | branch.py:236-252 | the loop leaves cluster, status and calls as Network.Propagate of the old cluster, stopping at the first failure |
| Branches.Branch.EventExecute | branch.py:89-105 | cluster, status and calls are Network.ExecuteAndPropagate of the old cluster |
| Branches.Branch.DepositOrWithdraw | branch.py:254-271 | cluster, status and calls are Network.DepositOrWithdraw of the old cluster |
| Branches.Branch.MsgDelivery | branch.py:181-205 | cluster, status and calls are Network.MsgDelivery of the old cluster; the reply holds this branch's new balance and clock |
| Customers.RequestFor | customer.py:32-39 | the request is typed "customer" and carries the customer's id, its current clock and the event's interface; an absent money or event id reads as 0; Customers.ServeClocks shows the clocks these requests carry strictly increase |
| Customers.UpdateClock | customer.py:43-44 | the customer's new clock exceeds both its old clock and the reply's clock, and is one more than one of them |
| Customers.Next | customer.py:31-41 | one step of the loop: after a failure nothing changes; otherwise at most the event's request is sent, and a success sends it and raises the clock |
| Customers.Serve | customer.py:29-41 | a run changes no ids and no peer lists |
| Customers.ServeFailureSticks | customer.py:31-41 | after a failed request no further request is sent |
| Customers.ServeClocks | customer.py:29-44 | requests go out in event order with strictly increasing clocks, the first at the starting clock. The clock never goes back: it ends no lower than it started. A successful run sends every event and ends past the last clock sent |
| Customers.ServeConverges | customer.py:29-41 | in a fully connected cluster containing the customer's branch, every event is served and every balance moves by the sum of the events' deltas |
| Customers.ServeMonotone | customer.py:29-41 | a run keeps every branch's clock discipline in any cluster, whichever of its requests fail |
| Customers.Customer.constructor | customer.py:7-21 | a new customer has clock 0 |
| Customers.Customer.UpdateLocalClock | customer.py:43-44 | the clock becomes UpdateClock of the old clock and the reply clock |
| Customers.Customer.ExecuteEvents | customer.py:29-41 | the loop leaves cluster, clock, requests sent and status as the run Serve from the old cluster and clock |
| Startup.OfKind | main.py:27-33 | the filter keeps at most every entry, and all it keeps have the asked type |
| Startup.OfKindAppend | main.py:27-33 | the filter keeps input order: it distributes over concatenation |
| Startup.OfKindCounts | main.py:27-33 | each entry of the type is kept as often as it occurs, and nothing else is |
| Startup.PartitionByKind | main.py:27-33 | an entry is in the branch list exactly when it is a branch entry of the input; likewise for customers; no entry is in both |
| Startup.ListPeers | main.py:80 | the peer list holds every other branch id exactly once, and not the branch's own id |
| Startup.StartedPeersAreOthers | main.py:75-81 | with distinct ids, each started branch's peers are exactly the other branches |
| Startup.StartedIsConnected | main.py:72-81 | with distinct branch ids, start-up yields distinct ids, full connection and the clock discipline; equal starting balances are equal |
| Startup.ServeAll | main.py:45-60 | the customers' runs change no ids and no peer lists |
| Startup.ServeAllMonotone | main.py:45-60 | the customers' runs keep every branch's clock discipline in any cluster, whichever requests fail |
| Startup.ServeAllConverges | main.py:45-60 | with every customer's branch present, every balance ends moved by the sum of all customers' deltas; equal balances stay equal; clocks stay disciplined |
| Startup.Main.constructor | main.py:15-25 | after construction the two lists are the input's branch and customer entries, in order |
| Startup.Main.ParseProcesses | main.py:27-33 | the loop appends exactly the branch entries and the customer entries in input order |
| Startup.Main.StartBranches | main.py:72-82 | one fresh branch per branch entry, with its id and balance, clock 0, empty logs, and every other id as a peer |
| Startup.Main.ExecuteCustomerEvents | main.py:45-60 | the cluster ends as ServeAll: the customers one after another, each from clock 0 |
| Startup.Main.Run | main.py:62-113 | start-up, then the customers, then output_logger's whole list for the final cluster |

## Left out

- gRPC transport, channels, ports and stubs. A call to branch `p` is modelled as
  running `p`'s handler on its state in the cluster, and a missing `p` as a failed
  call. The reply's `request_status` is never set by any caller and is left out.
- Ports. An address is the text `5005` followed by the id's digits (branch.py:217,
  main.py:76), so only the ids 0 to 9 give valid ports. A larger id gives a
  number past 65535 and a negative id gives no number, so start-up cannot bind
  them. The model resolves every integer id.
- Threads and `time.sleep`. The customers of `execute_customer_events` run one
  after another, and each request is served to completion. Interleavings of
  concurrent customers, and a server's three worker threads, are not modelled.
- Startup.Main.ExecuteCustomerEvents: one customer's failure does not stop the
  next, as with the source's threads. There is no exception handling around the
  whole run (the `try`/`except`/`finally` of `run`).
- Logging, `list_processes`, `log_balances` and the JSON text of
  `output_logger`. The list that is printed is Debugger.OutputLogger.
- Dictionary key order is not kept as separate state. It is derived from the
  plain log, which every `log_event` call of the source appends to as well
  (Debugger.KeyOrderIsKeys, Debugger.MergedOrderIsFirstAppearance).
- Amounts are integers. The source accepts floats, and float rounding is not
  modelled.
- Startup.ListPeers: the order of `list(set)` is left open. Any order is
  allowed, and the proofs hold for all of them.
- Two branch entries with the same id: the model routes calls to the first.
  Binding the same port twice is not modelled.
- `Customer.update_local_clock` takes any number of clocks. The model takes the
  single one the source passes.
- The `stub` field of Customer is the gRPC connection to its branch
  (customer.py:23-27, used at customer.py:40). It is transport, left out with
  gRPC: a request is served by running MsgDelivery on the cluster. The
  `recvMsg` list is never used, and is left out too.
- Record names are kept as (interface, phase) pairs. `Events.Text` gives the
  printed string, and Events.TextSeparatesPhases shows that within one
  interface the printed names differ. Collisions between names of different
  interfaces are not studied.
- Network.LinkToBranch runs the peer path directly. A branch-typed write is
  what MsgDelivery dispatches to that path.
- Events.PeerPathMonotone needs the origin's clock to be non-negative. Clocks
  start at 0 and only grow, so this always holds in a run.

`event_response_6` ticks but logs no record (branch.py:153-159). A write's
merged trace is therefore 2 + 3 × (number of peers) records, ending with the
last propagate-response and with no response entry. The recorded sample
outputs at the end of test_input_output.py agree with this: each write there
has 8 records for its two peers.

Where those sample outputs and the code differ, the model follows the code:

- Read as written, the code makes a branch at clock 0 that gets a customer request stamped
  with clock 0 log the request at clock 1: the remote clock 0 fails the
  source's truth test, so the result is local + 1. The samples show 2 there,
  with every later clock shifted by one as well.
