/**
 * BranchDebugger.output_logger: the tracker lists of every branch are
 * concatenated per event id, in branch-list order, and each concatenation is
 * sorted by clock with a stable sort.
 */
module Debugger {
  import opened Events

  /** The reference definition: the tracker lists for `eid` of the branches, in list order. */
  function Gathered(bs: seq<BranchState>, eid: int): seq<SubEvent>
    decreases |bs|
  {
    if bs == [] then [] else Gathered(bs[..|bs| - 1], eid) + Tracked(bs[|bs| - 1], eid)
  }

  /** One pass of the outer loop: `event_tracker[event_id] += sub_events` for every entry of branch `b`. */
  function Absorb(acc: map<int, seq<SubEvent>>, b: BranchState): (r: map<int, seq<SubEvent>>)
    ensures r.Keys == acc.Keys + b.tracker.Keys
    ensures forall eid :: Lookup(r, eid) == Lookup(acc, eid) + Tracked(b, eid)
  {
    map k | k in acc.Keys + b.tracker.Keys :: Lookup(acc, k) + Tracked(b, k)
  }

  /**
   * The accumulation loop over the branches: the dictionary holds, for each
   * id, exactly the concatenation of the branches' lists, and its keys are
   * the ids some branch tracks.
   */
  function Collect(bs: seq<BranchState>): (r: map<int, seq<SubEvent>>)
    ensures forall eid :: Lookup(r, eid) == Gathered(bs, eid)
    ensures r.Keys == TrackedIds(bs)
    decreases |bs|
  {
    if bs == [] then map[] else Absorb(Collect(bs[..|bs| - 1]), bs[|bs| - 1])
  }

  /** The event ids some branch of `bs` has tracked. */
  function TrackedIds(bs: seq<BranchState>): set<int>
    decreases |bs|
  {
    if bs == [] then {} else TrackedIds(bs[..|bs| - 1]) + bs[|bs| - 1].tracker.Keys
  }

  lemma {:induction false} TrackedIdsAt(bs: seq<BranchState>, i: nat, eid: int)
    requires i < |bs| && eid in bs[i].tracker
    ensures eid in TrackedIds(bs)
    decreases |bs|
  {
    if i < |bs| - 1 {
      assert bs[..|bs| - 1][i] == bs[i];
      TrackedIdsAt(bs[..|bs| - 1], i, eid);
    }
  }

  lemma {:induction false} TrackedIdsWitness(bs: seq<BranchState>, eid: int) returns (i: nat)
    requires eid in TrackedIds(bs)
    ensures i < |bs| && eid in bs[i].tracker
    decreases |bs|
  {
    var init := bs[..|bs| - 1];
    if eid in bs[|bs| - 1].tracker {
      i := |bs| - 1;
    } else {
      i := TrackedIdsWitness(init, eid);
      assert init[i] == bs[i];
    }
  }

  // ---------------------------------------------------------------- sorting

  predicate SortedByClock(s: seq<SubEvent>) {
    forall i, j :: 0 <= i < j < |s| ==> s[i].clock <= s[j].clock
  }

  /** Putting an element no later than a sorted list's head in front of it keeps it sorted. */
  lemma {:induction false} ConsSorted(h: SubEvent, rest: seq<SubEvent>)
    requires SortedByClock(rest) && (rest != [] ==> h.clock <= rest[0].clock)
    ensures SortedByClock([h] + rest)
  {
    var r := [h] + rest;
    forall i, j | 0 <= i < j < |r| ensures r[i].clock <= r[j].clock {
      if i == 0 { assert r[j] == rest[j - 1]; assert rest[0].clock <= rest[j - 1].clock; }
      else { assert r[i] == rest[i - 1] && r[j] == rest[j - 1]; }
    }
  }

  /** Insert `x` before the first element whose clock is not smaller, which keeps the sort stable. */
  function Insert(x: SubEvent, s: seq<SubEvent>): (r: seq<SubEvent>)
    ensures multiset(r) == multiset(s) + multiset{x}
    ensures |r| == |s| + 1
    ensures r[0] == x || (s != [] && r[0] == s[0])
  {
    if s == [] then [x]
    else if x.clock <= s[0].clock then [x] + s
    else
      assert s == [s[0]] + s[1..];
      [s[0]] + Insert(x, s[1..])
  }

  /** Inserting into a sorted list keeps it sorted. */
  lemma {:induction false} InsertKeepsSorted(x: SubEvent, s: seq<SubEvent>)
    requires SortedByClock(s)
    ensures SortedByClock(Insert(x, s))
  {
    if s == [] {
    } else if x.clock <= s[0].clock {
      ConsSorted(x, s);
    } else {
      assert SortedByClock(s[1..]);
      InsertKeepsSorted(x, s[1..]);
      ConsSorted(s[0], Insert(x, s[1..]));
    }
  }

  /** `sorted(data, key=clock)`: an insertion sort, stable like the source's. */
  function SortByClock(s: seq<SubEvent>): (r: seq<SubEvent>)
    ensures multiset(r) == multiset(s)
    ensures |r| == |s|
    ensures SortedByClock(r)
  {
    if s == [] then []
    else
      assert s == [s[0]] + s[1..];
      InsertKeepsSorted(s[0], SortByClock(s[1..]));
      Insert(s[0], SortByClock(s[1..]))
  }

  /** Sorting what is already sorted changes nothing. */
  lemma {:induction false} SortSortedIsIdentity(s: seq<SubEvent>)
    requires SortedByClock(s)
    ensures SortByClock(s) == s
  {
    if s != [] {
      assert SortedByClock(s[1..]);
      SortSortedIsIdentity(s[1..]);
    }
  }

  /** Dropping equal heads of two lists with equal multisets leaves tails with equal multisets. */
  lemma {:induction false} TailMultisets<T>(s: seq<T>, t: seq<T>)
    requires s != [] && t != [] && s[0] == t[0] && multiset(s) == multiset(t)
    ensures multiset(s[1..]) == multiset(t[1..])
  {
    assert s == [s[0]] + s[1..] && t == [t[0]] + t[1..];
    assert multiset(s) == multiset{s[0]} + multiset(s[1..]);
    assert multiset(t) == multiset{t[0]} + multiset(t[1..]);
    forall x ensures multiset(s[1..])[x] == multiset(t[1..])[x] {
      assert multiset(s)[x] == multiset(t)[x];
    }
  }

  /** A strictly increasing list and a clock-sorted rearrangement of it start with the same element. */
  lemma {:induction false} SameHead(s: seq<SubEvent>, t: seq<SubEvent>)
    requires IncreasingSubs(s) && SortedByClock(t) && multiset(s) == multiset(t) && s != []
    ensures t != [] && s[0] == t[0]
  {
    assert |s| == |multiset(s)| == |multiset(t)| == |t|;
    assert t[0] in multiset(s);
    var k :| 0 <= k < |s| && s[k] == t[0];
    assert s[0] in multiset(t);
    var j :| 0 <= j < |t| && t[j] == s[0];
    assert t[0].clock <= t[j].clock;
  }

  /**
   * When the clocks of `s` strictly increase, `s` is the only clock-sorted
   * arrangement of its elements.
   */
  lemma {:induction false} SortedPermutationIsUnique(s: seq<SubEvent>, t: seq<SubEvent>)
    requires IncreasingSubs(s) && SortedByClock(t) && multiset(s) == multiset(t)
    ensures s == t
    decreases |s|
  {
    if s == [] {
      assert |t| == |multiset(t)| == 0;
    } else {
      SameHead(s, t);
      TailMultisets(s, t);
      assert IncreasingSubs(s[1..]) && SortedByClock(t[1..]);
      SortedPermutationIsUnique(s[1..], t[1..]);
      assert s == [s[0]] + s[1..] && t == [t[0]] + t[1..];
    }
  }

  /** A clock-sequence with strictly increasing clocks is what the sort returns for any rearrangement of it. */
  lemma {:induction false} SortRecoversIncreasing(s: seq<SubEvent>, u: seq<SubEvent>)
    requires IncreasingSubs(s) && multiset(u) == multiset(s)
    ensures SortByClock(u) == s
  {
    SortedPermutationIsUnique(s, SortByClock(u));
  }

  // ---------------------------------------------------------------- stability

  /** The records of `s` stamped with clock `c`, in their order in `s`. */
  function AtClock(s: seq<SubEvent>, c: int): seq<SubEvent>
    decreases |s|
  {
    if s == [] then [] else (if s[0].clock == c then [s[0]] else []) + AtClock(s[1..], c)
  }

  /** Insert passes only records with a smaller clock, so `x` lands behind every record with its clock. */
  lemma {:induction false} InsertAtClock(x: SubEvent, s: seq<SubEvent>, c: int)
    ensures AtClock(Insert(x, s), c) == (if x.clock == c then [x] else []) + AtClock(s, c)
    decreases |s|
  {
    if s != [] && x.clock > s[0].clock {
      var r := Insert(x, s);
      assert r[0] == s[0] && r[1..] == Insert(x, s[1..]);
      InsertAtClock(x, s[1..], c);
      assert AtClock(r, c) == (if s[0].clock == c then [s[0]] else []) + AtClock(r[1..], c);
    }
  }

  /** The sort is stable: the records that share a clock keep their input order. */
  lemma {:induction false} SortIsStable(s: seq<SubEvent>, c: int)
    ensures AtClock(SortByClock(s), c) == AtClock(s, c)
    decreases |s|
  {
    if s != [] {
      SortIsStable(s[1..], c);
      InsertAtClock(s[0], SortByClock(s[1..]), c);
    }
  }

  /** Every record of AtClock(s, c) is a record of `s`, at clock c. */
  lemma {:induction false} AtClockMembers(s: seq<SubEvent>, c: int, x: SubEvent)
    requires x in AtClock(s, c)
    ensures x in s && x.clock == c
    decreases |s|
  {
    if s[0] != x || s[0].clock != c {
      AtClockMembers(s[1..], c, x);
    }
  }

  /** In a clock-sorted list, nothing with a smaller clock than the head is in it. */
  lemma {:induction false} NothingBelowHead(s: seq<SubEvent>, c: int)
    requires SortedByClock(s) && s != [] && c < s[0].clock
    ensures AtClock(s, c) == []
  {
    if AtClock(s, c) != [] {
      AtClockMembers(s, c, AtClock(s, c)[0]);
    }
  }

  /**
   * Sortedness and stability pin the result down: a clock-sorted list whose
   * records at every clock are those of `s`, in their order, is the sort of `s`.
   */
  lemma {:induction false} StableSortIsUnique(t: seq<SubEvent>, u: seq<SubEvent>)
    requires SortedByClock(t) && SortedByClock(u)
    requires forall c :: AtClock(t, c) == AtClock(u, c)
    ensures t == u
    decreases |t| + |u|
  {
    if t == [] && u != [] {
      assert AtClock(t, u[0].clock) != AtClock(u, u[0].clock);
    } else if t != [] && u == [] {
      assert AtClock(t, t[0].clock) != AtClock(u, t[0].clock);
    } else if t != [] {
      if t[0].clock < u[0].clock {
        NothingBelowHead(u, t[0].clock);
      } else if u[0].clock < t[0].clock {
        NothingBelowHead(t, u[0].clock);
      } else {
        assert AtClock(t, t[0].clock)[0] == t[0] && AtClock(u, t[0].clock)[0] == u[0];
        assert t[0] == u[0];
        forall c ensures AtClock(t[1..], c) == AtClock(u[1..], c) {
          var h := if t[0].clock == c then [t[0]] else [];
          assert AtClock(t, c) == h + AtClock(t[1..], c) && AtClock(u, c) == h + AtClock(u[1..], c);
          assert AtClock(t[1..], c) == AtClock(t, c)[|h|..] && AtClock(u[1..], c) == AtClock(u, c)[|h|..];
        }
        assert SortedByClock(t[1..]) && SortedByClock(u[1..]);
        StableSortIsUnique(t[1..], u[1..]);
        assert t == [t[0]] + t[1..] && u == [u[0]] + u[1..];
      }
    }
  }

  /** `sorted` is specified by sortedness and stability alone: any list with both properties is the sort. */
  lemma {:induction false} StableSortedIsSort(s: seq<SubEvent>, t: seq<SubEvent>)
    requires SortedByClock(t) && forall c :: AtClock(t, c) == AtClock(s, c)
    ensures t == SortByClock(s)
  {
    forall c ensures AtClock(t, c) == AtClock(SortByClock(s), c) {
      SortIsStable(s, c);
    }
    StableSortIsUnique(t, SortByClock(s));
  }

  // ---------------------------------------------------------------- insertion order

  /** Each id of `ks` not yet in `acc` appended in turn: how new keys enter a dict's order. */
  function AddNew(acc: seq<int>, ks: seq<int>): seq<int>
    decreases |ks|
  {
    if ks == [] then acc
    else
      var p := AddNew(acc, ks[..|ks| - 1]);
      if ks[|ks| - 1] in p then p else p + [ks[|ks| - 1]]
  }

  predicate NoDuplicates(s: seq<int>) {
    forall i, j :: 0 <= i < j < |s| ==> s[i] != s[j]
  }

  /** The keys after AddNew are the old keys and the new ones, none twice. */
  lemma {:induction false} AddNewMembers(acc: seq<int>, ks: seq<int>)
    ensures forall v :: v in AddNew(acc, ks) <==> v in acc || v in ks
    ensures NoDuplicates(acc) ==> NoDuplicates(AddNew(acc, ks))
    ensures |AddNew(acc, ks)| >= |acc| && AddNew(acc, ks)[..|acc|] == acc
    decreases |ks|
  {
    if ks != [] {
      var init := ks[..|ks| - 1];
      AddNewMembers(acc, init);
      assert forall v :: v in ks <==> v in init || v == ks[|ks| - 1] by {
        assert ks == init + [ks[|ks| - 1]];
      }
    }
  }

  /** Adding a list's ids in one go is adding those of its two halves in turn. */
  lemma {:induction false} AddNewAppend(acc: seq<int>, a: seq<int>, b: seq<int>)
    ensures AddNew(acc, a + b) == AddNew(AddNew(acc, a), b)
    decreases |b|
  {
    if b == [] {
      assert a + b == a;
    } else {
      assert (a + b)[..|a + b| - 1] == a + b[..|b| - 1];
      AddNewAppend(acc, a, b[..|b| - 1]);
    }
  }

  /** Repeated ids change nothing: adding the first-appearance order of `ks` is adding `ks`. */
  lemma {:induction false} AddNewDeduplicated(acc: seq<int>, ks: seq<int>)
    ensures AddNew(acc, AddNew([], ks)) == AddNew(acc, ks)
    decreases |ks|
  {
    if ks != [] {
      var init, k := ks[..|ks| - 1], ks[|ks| - 1];
      var q := AddNew([], init);
      AddNewDeduplicated(acc, init);
      AddNewMembers([], init);
      AddNewMembers(acc, init);
      if k !in q {
        assert (q + [k])[..|q|] == q;
      }
    }
  }

  /** The event ids of a log, record by record. */
  function IdsOf(es: seq<Event>): (r: seq<int>)
    ensures |r| == |es| && forall i :: 0 <= i < |es| ==> r[i] == es[i].id
    decreases |es|
  {
    if es == [] then [] else IdsOf(es[..|es| - 1]) + [es[|es| - 1].id]
  }

  /** An id occurs in a log exactly when the log has records for it. */
  lemma {:induction false} IdsOfRecords(es: seq<Event>, v: int)
    ensures v in IdsOf(es) <==> RecordsFor(es, v) != []
    decreases |es|
  {
    if es != [] {
      IdsOfRecords(es[..|es| - 1], v);
    }
  }

  /**
   * The order of a branch's tracker keys: a defaultdict adds a key when
   * log_event first touches it, and every record also goes to the plain
   * log, so the keys come in the order their ids first appear there.
   */
  function KeyOrder(b: BranchState): seq<int> {
    AddNew([], IdsOf(b.events))
  }

  /** With the logs in step, the key order lists exactly the tracked ids, each once. */
  lemma {:induction false} KeyOrderIsKeys(b: BranchState)
    requires TrackerMirrorsLog(b)
    ensures forall v :: v in KeyOrder(b) <==> v in b.tracker
    ensures NoDuplicates(KeyOrder(b))
  {
    AddNewMembers([], IdsOf(b.events));
    forall v ensures v in KeyOrder(b) <==> v in b.tracker {
      IdsOfRecords(b.events, v);
      assert Tracked(b, v) == RecordsFor(b.events, v);
    }
  }

  /** The insertion order of output_logger's dictionary: each branch's keys in turn, new ones at the end. */
  function MergedOrder(bs: seq<BranchState>): (r: seq<int>)
    ensures NoDuplicates(r)
    decreases |bs|
  {
    if bs == [] then []
    else
      var prev := MergedOrder(bs[..|bs| - 1]);
      AddNewMembers(prev, KeyOrder(bs[|bs| - 1]));
      AddNew(prev, KeyOrder(bs[|bs| - 1]))
  }

  /** All branches' plain logs, one after another in branch-list order. */
  function AllEvents(bs: seq<BranchState>): seq<Event>
    decreases |bs|
  {
    if bs == [] then [] else AllEvents(bs[..|bs| - 1]) + bs[|bs| - 1].events
  }

  lemma {:induction false} IdsOfAppend(a: seq<Event>, b: seq<Event>)
    ensures IdsOf(a + b) == IdsOf(a) + IdsOf(b)
  {
  }

  /**
   * The output's event entries come in the order the event ids first appear
   * when the branches' plain logs are read one after another.
   */
  lemma {:induction false} MergedOrderIsFirstAppearance(bs: seq<BranchState>)
    ensures MergedOrder(bs) == AddNew([], IdsOf(AllEvents(bs)))
    decreases |bs|
  {
    if bs != [] {
      var init, b := bs[..|bs| - 1], bs[|bs| - 1];
      MergedOrderIsFirstAppearance(init);
      AddNewDeduplicated(MergedOrder(init), IdsOf(b.events));
      AddNewAppend([], IdsOf(AllEvents(init)), IdsOf(b.events));
      IdsOfAppend(AllEvents(init), b.events);
    }
  }

  /** When every branch's logs are in step, the output has one event entry for each tracked id and no other. */
  lemma {:induction false} MergedOrderIsTracked(bs: seq<BranchState>)
    requires forall k :: 0 <= k < |bs| ==> TrackerMirrorsLog(bs[k])
    ensures forall v :: v in MergedOrder(bs) <==> v in TrackedIds(bs)
    decreases |bs|
  {
    if bs != [] {
      var init, b := bs[..|bs| - 1], bs[|bs| - 1];
      assert forall k :: 0 <= k < |init| ==> init[k] == bs[k];
      MergedOrderIsTracked(init);
      KeyOrderIsKeys(b);
      AddNewMembers(MergedOrder(init), KeyOrder(b));
    }
  }

  // ---------------------------------------------------------------- output

  /** An entry of output_logger's list: a branch's plain log, or the merged records of one event id. */
  datatype Entry =
    | BranchEntry(id: int, events: seq<Event>)
    | EventEntry(eventId: int, records: seq<SubEvent>)

  /**
   * `events_by_event_ids`: in the dictionary's insertion order, each id with
   * all branches' records for it, sorted by clock with a stable sort.
   */
  function EventEntries(bs: seq<BranchState>): (r: seq<Entry>)
    ensures |r| == |MergedOrder(bs)|
    ensures forall j :: 0 <= j < |r| ==>
      && r[j].EventEntry? && r[j].eventId == MergedOrder(bs)[j]
      && multiset(r[j].records) == multiset(Gathered(bs, r[j].eventId))
      && SortedByClock(r[j].records)
      && forall c :: AtClock(r[j].records, c) == AtClock(Gathered(bs, r[j].eventId), c)
  {
    var acc, order := Collect(bs), MergedOrder(bs);
    forall eid, c ensures AtClock(SortByClock(Lookup(acc, eid)), c) == AtClock(Gathered(bs, eid), c) {
      SortIsStable(Lookup(acc, eid), c);
    }
    seq(|order|, j requires 0 <= j < |order| => EventEntry(order[j], SortByClock(Lookup(acc, order[j]))))
  }

  /** output_logger's list: every branch's plain log in list order, then the event entries. */
  function OutputLogger(bs: seq<BranchState>): (r: seq<Entry>)
    ensures |r| == |bs| + |MergedOrder(bs)|
    ensures forall i :: 0 <= i < |bs| ==> r[i] == BranchEntry(bs[i].id, bs[i].events)
    ensures r[|bs|..] == EventEntries(bs)
  {
    seq(|bs|, i requires 0 <= i < |bs| => BranchEntry(bs[i].id, bs[i].events)) + EventEntries(bs)
  }
}
