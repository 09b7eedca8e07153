/** Trying the entries of a list in order until enough of them succeed. */
module Attempts {
  import opened Seqs

  /** The machines tried, in order, until want of them have succeeded: those in
      skip are passed over, those in refuses fail. */
  function Tries<K(==)>(ids: seq<K>, want: nat, skip: set<K>, refuses: set<K>): seq<K> {
    if ids == [] || want == 0 then []
    else if ids[0] in skip then Tries(ids[1..], want, skip, refuses)
    else [ids[0]] + Tries(ids[1..], if ids[0] in refuses then want else want - 1, skip, refuses)
  }

  /** The entries of ids that are not in s. */
  function Without<K(==)>(ids: seq<K>, s: set<K>): seq<K> {
    if ids == [] then []
    else Without(ids[..|ids| - 1], s) + if ids[|ids| - 1] in s then [] else [ids[|ids| - 1]]
  }

  lemma {:induction false} WithoutElems<K>(ids: seq<K>, s: set<K>)
    ensures Elems(Without(ids, s)) == Elems(ids) - s
  {
    if ids == [] {
      assert Elems(ids) == {};
    } else {
      var n := |ids| - 1;
      WithoutElems(ids[..n], s);
      assert ids == ids[..n] + [ids[n]];
      ElemsAppend(ids[..n], ids[n]);
      ElemsAppend(Without(ids[..n], s), ids[n]);
    }
  }

  lemma {:induction false} WithoutNoDup<K>(ids: seq<K>, s: set<K>)
    requires NoDup(ids)
    ensures NoDup(Without(ids, s))
  {
    if ids != [] {
      var n := |ids| - 1;
      var w := Without(ids[..n], s);
      WithoutNoDup(ids[..n], s);
      WithoutElems(ids[..n], s);
      assert forall i :: 0 <= i < |w| ==> w[i] in Elems(w);
    }
  }

  /** Its length counts the elements that stay. */
  lemma WithoutCard<K>(ids: seq<K>, s: set<K>)
    requires NoDup(ids)
    ensures |Without(ids, s)| == |Elems(ids) - s|
  {
    WithoutElems(ids, s);
    WithoutNoDup(ids, s);
    NoDupCard(Without(ids, s));
  }

  /** Nothing goes exactly when nothing is in s. */
  lemma {:induction false} WithoutNothing<K>(ids: seq<K>, s: set<K>)
    ensures |Without(ids, s)| <= |ids|
    ensures |Without(ids, s)| == |ids| <==> Elems(ids) * s == {}
  {
    if ids == [] {
      assert Elems(ids) == {};
    } else {
      var n := |ids| - 1;
      WithoutNothing(ids[..n], s);
      assert ids == ids[..n] + [ids[n]];
      ElemsAppend(ids[..n], ids[n]);
      assert Elems(ids) * s == Elems(ids[..n]) * s + {ids[n]} * s;
      if ids[n] in s {
        assert ids[n] in Elems(ids) * s;
      } else {
        assert {ids[n]} * s == {};
      }
    }
  }

  lemma WithoutSnoc<K>(ids: seq<K>, id: K, s: set<K>)
    ensures Without(ids + [id], s) == Without(ids, s) + if id in s then [] else [id]
  {
    assert (ids + [id])[..|ids + [id]| - 1] == ids;
  }

  lemma {:induction false} WithoutCons<K>(id: K, ids: seq<K>, s: set<K>)
    ensures |Without([id] + ids, s)| == |Without(ids, s)| + if id in s then 0 else 1
  {
    if ids == [] {
      assert [id] + ids == [] + [id];
      WithoutSnoc([], id, s);
    } else {
      var n := |ids| - 1;
      WithoutCons(id, ids[..n], s);
      assert [id] + ids == ([id] + ids[..n]) + [ids[n]];
      WithoutSnoc([id] + ids[..n], ids[n], s);
    }
  }

  /** As many tries succeed as are wanted and able. */
  lemma {:induction false} TriesCount<K>(ids: seq<K>, want: nat, skip: set<K>, refuses: set<K>)
    ensures |Without(Tries(ids, want, skip, refuses), refuses)| == Smaller(want, |Without(ids, skip + refuses)|)
  {
    if ids != [] && want != 0 {
      var id, rest := ids[0], ids[1..];
      assert ids == [id] + rest;
      WithoutCons(id, rest, skip + refuses);
      if id in skip {
        TriesCount(rest, want, skip, refuses);
      } else {
        var w := if id in refuses then want else want - 1;
        TriesCount(rest, w, skip, refuses);
        WithoutCons(id, Tries(rest, w, skip, refuses), refuses);
      }
    }
  }

  /** Only machines that need not be skipped are tried; and all of them are when too
      few succeed. */
  lemma {:induction false} TriesWithin<K>(ids: seq<K>, want: nat, skip: set<K>, refuses: set<K>)
    ensures var t := Tries(ids, want, skip, refuses);
      && Elems(t) <= Elems(ids) - skip
      && (|Without(t, refuses)| < want ==> Elems(t) == Elems(ids) - skip)
  {
    var t := Tries(ids, want, skip, refuses);
    if ids == [] || want == 0 {
      assert Elems(t) == {};
      assert ids == [] ==> Elems(ids) == {};
    } else {
      var id, rest := ids[0], ids[1..];
      ElemsCons(ids);
      if id in skip {
        TriesWithin(rest, want, skip, refuses);
      } else {
        var w := if id in refuses then want else want - 1;
        var u := Tries(rest, w, skip, refuses);
        TriesWithin(rest, w, skip, refuses);
        WithoutCons(id, u, refuses);
        ElemsCons(t);
        assert t[1..] == u;
      }
    }
  }

  lemma ElemsCons<K>(ids: seq<K>)
    requires ids != []
    ensures Elems(ids) == {ids[0]} + Elems(ids[1..])
  {
    assert ids == [ids[0]] + ids[1..];
    ElemsConcat([ids[0]], ids[1..]);
    assert Elems([ids[0]]) == {ids[0]};
  }

  /** No machine is tried twice. */
  lemma {:induction false} TriesOnce<K>(ids: seq<K>, want: nat, skip: set<K>, refuses: set<K>)
    requires NoDup(ids)
    ensures NoDup(Tries(ids, want, skip, refuses))
  {
    if ids != [] && want != 0 {
      var id, rest := ids[0], ids[1..];
      if id in skip {
        TriesOnce(rest, want, skip, refuses);
      } else {
        var w := if id in refuses then want else want - 1;
        var u := Tries(rest, w, skip, refuses);
        TriesOnce(rest, w, skip, refuses);
        TriesWithin(rest, w, skip, refuses);
        forall i | 0 <= i < |u| ensures u[i] != id {
          assert u[i] in Elems(u) && u[i] in Elems(rest);
        }
      }
    }
  }

  /** Both together, for a list without repeats. */
  lemma TriesFacts<K>(ids: seq<K>, want: nat, skip: set<K>, refuses: set<K>, candidates: set<K>)
    requires NoDup(ids) && candidates == Elems(ids) - skip
    ensures var t := Tries(ids, want, skip, refuses);
      && NoDup(t)
      && Elems(t) <= candidates
      && |Without(t, refuses)| == Smaller(want, |candidates - refuses|)
      && (|Without(t, refuses)| < want ==> Elems(t) == candidates)
  {
    TriesCount(ids, want, skip, refuses);
    TriesWithin(ids, want, skip, refuses);
    TriesOnce(ids, want, skip, refuses);
    WithoutCard(ids, skip + refuses);
    assert candidates - refuses == Elems(ids) - (skip + refuses);
  }

  lemma TryAllFacts<K>(ids: seq<K>, want: nat, refuses: set<K>)
    requires NoDup(ids)
    ensures var t := Tries(ids, want, {}, refuses);
      && NoDup(t)
      && Elems(t) <= Elems(ids)
      && |Without(t, refuses)| == Smaller(want, |Elems(ids) - refuses|)
      && (|Without(t, refuses)| < want ==> Elems(t) == Elems(ids))
  {
    assert Elems(ids) - {} == Elems(ids);
    TriesFacts(ids, want, {}, refuses, Elems(ids));
  }

  /** The machines tried are the first ones in the list, passed-over ones aside. */
  lemma {:induction false} TriesAreFirst<K>(ids: seq<K>, want: nat, skip: set<K>, refuses: set<K>)
    ensures Tries(ids, want, skip, refuses) <= Without(ids, skip)
  {
    if ids != [] && want != 0 {
      WithoutFirst(ids, skip);
      if ids[0] in skip {
        TriesAreFirst(ids[1..], want, skip, refuses);
      } else {
        TriesAreFirst(ids[1..], if ids[0] in refuses then want else want - 1, skip, refuses);
      }
    }
  }

  lemma {:induction false} WithoutFirst<K>(ids: seq<K>, s: set<K>)
    requires ids != []
    ensures Without(ids, s) == (if ids[0] in s then [] else [ids[0]]) + Without(ids[1..], s)
  {
    var n := |ids| - 1;
    if n > 0 {
      WithoutFirst(ids[..n], s);
      assert ids[1..][..n - 1] == ids[..n][1..];
    }
  }

  function Smaller(a: int, b: int): int {
    if a < b then a else b
  }

  /** With i entries behind and left successes to go, tried is what has been tried. */
  ghost predicate Underway<K>(ids: seq<K>, want: nat, skip: set<K>, refuses: set<K>, i: nat, left: nat, tried: seq<K>) {
    i <= |ids| && tried + Tries(ids[i..], left, skip, refuses) == Tries(ids, want, skip, refuses)
  }

  lemma TriedEnough<K>(ids: seq<K>, want: nat, skip: set<K>, refuses: set<K>, i: nat, left: nat, tried: seq<K>)
    requires Underway(ids, want, skip, refuses, i, left, tried) && (i == |ids| || left == 0)
    ensures tried == Tries(ids, want, skip, refuses)
  {
  }

  lemma TryNext<K>(ids: seq<K>, want: nat, skip: set<K>, refuses: set<K>, i: nat, left: nat, tried: seq<K>)
    requires i < |ids| && left > 0 && Underway(ids, want, skip, refuses, i, left, tried)
    ensures ids[i] in skip ==> Underway(ids, want, skip, refuses, i + 1, left, tried)
    ensures ids[i] !in skip ==>
      Underway(ids, want, skip, refuses, i + 1, if ids[i] in refuses then left else left - 1, tried + [ids[i]])
  {
    assert ids[i..][0] == ids[i] && ids[i..][1..] == ids[i + 1..];
  }
}

module Pool {
  import opened Seqs
  import opened Ordering
  import opened Attempts

  datatype MachineState = Created | Starting | Started | Stopping | Stopped | Suspended | Other(name: string)

  /** A machine's id, which is also the host name its runner registers under. */
  datatype MachineId = MachineId(text: string)

  datatype Machine = Machine(id: MachineId, state: MachineState)

  predicate Active(s: MachineState) {
    s.Starting? || s.Started?
  }

  predicate Startable(s: MachineState) {
    s.Stopped? || s.Suspended? || s.Created?
  }

  const BY_ID: Machine -> string := (m: Machine) => m.id.text

  /** A start passes over no machine. */
  const NOBODY: set<MachineId> := {}

  datatype Op = StartOp(id: MachineId) | StopOp(id: MachineId)

  /** What is known about busy runners: nobody to ask, no answer, or their names. */
  datatype BusyReport = NoSource | Unreadable | Names(names: seq<string>)

  predicate HasSuffix(name: string, id: string) {
    |id| <= |name| && name[|name| - |id|..] == id
  }

  // ------------------------------------------------------------------
  // The app's machines
  // ------------------------------------------------------------------

  type States = map<MachineId, MachineState>

  function ActiveIds(states: States): set<MachineId> {
    set id | id in states && Active(states[id])
  }

  function StartableIds(states: States): set<MachineId> {
    set id | id in states && Startable(states[id])
  }

  /** ms lists every machine of the app once, in any order. */
  ghost predicate Lists(ms: seq<Machine>, states: States) {
    && DistinctKeys(BY_ID, ms)
    && (forall i :: 0 <= i < |ms| ==> ms[i].id in states && states[ms[i].id] == ms[i].state)
    && (forall id :: id in states ==> exists i :: 0 <= i < |ms| && ms[i].id == id)
  }

  /** The same for the machines that are not in left. */
  ghost predicate ListsAllBut(ms: seq<Machine>, states: States, left: set<MachineId>) {
    && DistinctKeys(BY_ID, ms)
    && (forall i :: 0 <= i < |ms| ==> ms[i].id in states && ms[i].id !in left && states[ms[i].id] == ms[i].state)
    && (forall id :: id in states && id !in left ==> exists i :: 0 <= i < |ms| && ms[i].id == id)
  }

  lemma ListOne(ms: seq<Machine>, states: States, left: set<MachineId>, id: MachineId)
    requires ListsAllBut(ms, states, left) && id in left && id in states
    ensures ListsAllBut(ms + [Machine(id, states[id])], states, left - {id})
  {
    var more := ms + [Machine(id, states[id])];
    assert more[|ms|].id == id;
    forall other | other in states && other !in left - {id} ensures exists i :: 0 <= i < |more| && more[i].id == other {
      if other != id {
        var i :| 0 <= i < |ms| && ms[i].id == other;
        assert more[i].id == other;
      }
    }
  }

  /** The states once the machines in moved have changed to s. */
  function Moved(states: States, moved: set<MachineId>, s: MachineState): States {
    map id | id in states :: if id in moved then s else states[id]
  }

  /** The Machines API of one app. `refuses` are the machines whose calls fail. */
  class App {
    var states: States
    var ops: seq<Op>
    var listings: seq<Option<seq<Machine>>>
    const refuses: set<MachineId>

    constructor (states: States, refuses: set<MachineId>)
      ensures this.states == states && this.refuses == refuses && ops == [] && listings == []
    {
      this.states, this.refuses, ops, listings := states, refuses, [], [];
    }

    /** Lists the machines in whatever order the API likes, or fails. */
    method ListMachines() returns (r: Option<seq<Machine>>)
      modifies this`listings
      ensures listings == old(listings) + [r]
      ensures r.Some? ==> Lists(r.value, states)
    {
      var ok: bool := *;
      if !ok {
        listings := listings + [None];
        return None;
      }
      var ms: seq<Machine> := [];
      var left := states.Keys;
      while left != {}
        invariant left <= states.Keys && ListsAllBut(ms, states, left) && listings == old(listings)
        decreases left
      {
        ghost var one := SomeElement(left);
        var id :| id in left;
        ListOne(ms, states, left, id);
        ms := ms + [Machine(id, states[id])];
        left := left - {id};
      }
      listings := listings + [Some(ms)];
      return Some(ms);
    }

    method Start(id: MachineId) returns (ok: bool)
      requires id in states
      modifies this`states, this`ops
      ensures ops == old(ops) + [StartOp(id)]
      ensures ok <==> id !in refuses
      ensures states == if ok then old(states)[id := Starting] else old(states)
    {
      ops := ops + [StartOp(id)];
      ok := id !in refuses;
      if ok {
        states := states[id := Starting];
      }
    }

    method Stop(id: MachineId) returns (ok: bool)
      requires id in states
      modifies this`states, this`ops
      ensures ops == old(ops) + [StopOp(id)]
      ensures ok <==> id !in refuses
      ensures states == if ok then old(states)[id := Stopping] else old(states)
    {
      ops := ops + [StopOp(id)];
      ok := id !in refuses;
      if ok {
        states := states[id := Stopping];
      }
    }
  }

  // ------------------------------------------------------------------
  // What a call plans to do
  // ------------------------------------------------------------------

  function IdsWhere(ms: seq<Machine>, p: MachineState -> bool): seq<MachineId> {
    if ms == [] then []
    else
      var n := |ms| - 1;
      IdsWhere(ms[..n], p) + if p(ms[n].state) then [ms[n].id] else []
  }

  const IS_ACTIVE: MachineState -> bool := s => Active(s)
  const IS_STARTABLE: MachineState -> bool := s => Startable(s)

  /** The machines a busy report protects: some busy runner's name ends in the id. */
  function Protected(ids: seq<MachineId>, names: seq<string>): set<MachineId> {
    set id | id in ids && exists name :: name in names && HasSuffix(name, id.text)
  }

  datatype Plan = Plan(starting: bool, tried: seq<MachineId>, want: nat, blocked: bool)
  {
    /** The machines whose call succeeds. */
    function Won(refuses: set<MachineId>): seq<MachineId> {
      Without(tried, refuses)
    }

    function Ops(): seq<Op> {
      if starting then Starts(tried) else Stops(tried)
    }

    function After(states: States, refuses: set<MachineId>): States {
      AfterTrying(states, tried, refuses, if starting then Starting else Stopping)
    }

    /** Whether the call reports an error: a start only when its failures were not
        covered by other machines, a stop whenever any stop failed. */
    predicate Fails(refuses: set<MachineId>) {
      || blocked
      || (|Won(refuses)| < |tried| && (starting ==> |Won(refuses)| < want))
    }
  }

  function Starts(ids: seq<MachineId>): seq<Op> {
    seq(|ids|, i requires 0 <= i < |ids| => StartOp(ids[i]))
  }

  function Stops(ids: seq<MachineId>): seq<Op> {
    seq(|ids|, i requires 0 <= i < |ids| => StopOp(ids[i]))
  }

  /** The machines a stop passes over. */
  function Skipped(active: seq<MachineId>, busy: BusyReport): set<MachineId> {
    if busy.Names? then Protected(active, busy.names) else {}
  }

  function StartPlan(startable: seq<MachineId>, want: nat, refuses: set<MachineId>): Plan {
    Plan(true, Tries(startable, want, NOBODY, refuses), want, false)
  }

  function StopPlan(active: seq<MachineId>, excess: nat, busy: BusyReport, refuses: set<MachineId>): Plan {
    if busy.Unreadable? then Plan(false, [], excess, true)
    else Plan(false, Tries(active, excess, Skipped(active, busy), refuses), excess, false)
  }

  /** What SetReplicas(n) does about machines in id order. */
  function PlanSorted(sorted: seq<Machine>, n: int, busy: BusyReport, refuses: set<MachineId>): Plan {
    var active := IdsWhere(sorted, IS_ACTIVE);
    if |active| < n then StartPlan(IdsWhere(sorted, IS_STARTABLE), n - |active|, refuses)
    else if |active| > n then StopPlan(active, |active| - n, busy, refuses)
    else Plan(true, [], 0, false)
  }

  /** What SetReplicas(n) does about a listing. */
  function PlanFor(ms: seq<Machine>, n: int, busy: BusyReport, refuses: set<MachineId>): Plan {
    PlanSorted(Sort(BY_ID, ms), n, busy, refuses)
  }

  // ------------------------------------------------------------------
  // Lists of machines
  // ------------------------------------------------------------------

  lemma {:induction false} IdsWhereFacts(ms: seq<Machine>, p: MachineState -> bool)
    requires DistinctKeys(BY_ID, ms)
    ensures NoDup(IdsWhere(ms, p))
    ensures forall id :: id in IdsWhere(ms, p) <==> exists i :: 0 <= i < |ms| && ms[i].id == id && p(ms[i].state)
  {
    if ms != [] {
      var n := |ms| - 1;
      var r := IdsWhere(ms, p);
      var t := IdsWhere(ms[..n], p);
      IdsWhereFacts(ms[..n], p);
      forall id ensures id in r <==> exists i :: 0 <= i < |ms| && ms[i].id == id && p(ms[i].state) {
        if id in t {
          var i :| 0 <= i < n && ms[..n][i].id == id && p(ms[..n][i].state);
          assert ms[i].id == id && p(ms[i].state);
        }
        if i :| 0 <= i < |ms| && ms[i].id == id && p(ms[i].state) {
          if i < n {
            assert ms[..n][i].id == id && p(ms[..n][i].state);
          }
        }
      }
      forall j | 0 <= j < |t| ensures t[j] != ms[n].id {
        assert t[j] in t;
        var i :| 0 <= i < n && ms[..n][i].id == t[j];
        assert BY_ID(ms[i]) == t[j].text && BY_ID(ms[n]) == ms[n].id.text;
      }
    }
  }

  /** Sorting keeps a listing a listing. */
  lemma SortedLists(ms: seq<Machine>, states: States)
    requires Lists(ms, states)
    ensures Lists(Sort(BY_ID, ms), states)
  {
    SortSorts(BY_ID, ms);
    var r := Sort(BY_ID, ms);
    forall i | 0 <= i < |r| ensures r[i].id in states && states[r[i].id] == r[i].state {
      assert r[i] in multiset(r);
      assert r[i] in multiset(ms);
    }
    forall id | id in states ensures exists i :: 0 <= i < |r| && r[i].id == id {
      var k :| 0 <= k < |ms| && ms[k].id == id;
      assert ms[k] in multiset(ms);
      assert ms[k] in multiset(r);
      var i :| 0 <= i < |r| && r[i] == ms[k];
    }
  }

  lemma ListedIds(ms: seq<Machine>, states: States)
    requires Lists(ms, states)
    ensures IsListing(IdsWhere(ms, IS_ACTIVE), ActiveIds(states))
    ensures IsListing(IdsWhere(ms, IS_STARTABLE), StartableIds(states))
    ensures |IdsWhere(ms, IS_ACTIVE)| == |ActiveIds(states)|
  {
    IdsWhereFacts(ms, IS_ACTIVE);
    IdsWhereFacts(ms, IS_STARTABLE);
    var a, s := IdsWhere(ms, IS_ACTIVE), IdsWhere(ms, IS_STARTABLE);
    forall id ensures id in Elems(a) <==> id in ActiveIds(states) {
      if id in ActiveIds(states) {
        var i :| 0 <= i < |ms| && ms[i].id == id;
        assert IS_ACTIVE(ms[i].state);
      }
    }
    forall id ensures id in Elems(s) <==> id in StartableIds(states) {
      if id in StartableIds(states) {
        var i :| 0 <= i < |ms| && ms[i].id == id;
        assert IS_STARTABLE(ms[i].state);
      }
    }
    NoDupCard(a);
  }

  // ------------------------------------------------------------------
  // What a plan achieves
  // ------------------------------------------------------------------

  /** The active machines that the report says are busy. */
  function BusyIds(states: States, busy: BusyReport): set<MachineId> {
    if busy.Names? then set id | id in ActiveIds(states) && exists name :: name in busy.names && HasSuffix(name, id.text)
    else {}
  }

  /** The machines SetReplicas(n) may try. */
  function Candidates(states: States, n: int, busy: BusyReport): set<MachineId> {
    if |ActiveIds(states)| <= n then StartableIds(states)
    else if busy.Unreadable? then {}
    else ActiveIds(states) - BusyIds(states, busy)
  }

  function Distance(states: States, n: int): nat {
    if |ActiveIds(states)| < n then n - |ActiveIds(states)| else |ActiveIds(states)| - n
  }

  /** p tries candidates only, each once, until enough succeed or none is left. */
  ghost predicate Pursues(p: Plan, states: States, n: int, busy: BusyReport, refuses: set<MachineId>) {
    && NoDup(p.tried)
    && Elems(p.tried) <= Candidates(states, n, busy)
    && p.starting == (|ActiveIds(states)| <= n)
    && p.blocked == (|ActiveIds(states)| > n && busy.Unreadable?)
    && p.want == Distance(states, n)
    && |p.Won(refuses)| == Smaller(p.want, |Candidates(states, n, busy) - refuses|)
    && (|p.Won(refuses)| < p.want ==> Elems(p.tried) == Candidates(states, n, busy))
  }

  /** Pursuit, spelled out for a given set of candidates. */
  lemma TriesPursue(p: Plan, candidates: set<MachineId>, states: States, n: int, busy: BusyReport, refuses: set<MachineId>)
    requires candidates == Candidates(states, n, busy)
    requires NoDup(p.tried) && Elems(p.tried) <= candidates
    requires p.starting == (|ActiveIds(states)| <= n)
    requires p.blocked == (|ActiveIds(states)| > n && busy.Unreadable?)
    requires p.want == Distance(states, n)
    requires |p.Won(refuses)| == Smaller(p.want, |candidates - refuses|)
    requires |p.Won(refuses)| < p.want ==> Elems(p.tried) == candidates
    ensures Pursues(p, states, n, busy, refuses)
  {
  }

  lemma StartPursues(startable: seq<MachineId>, states: States, n: int, busy: BusyReport, refuses: set<MachineId>)
    requires IsListing(startable, StartableIds(states)) && |ActiveIds(states)| < n
    ensures Pursues(StartPlan(startable, n - |ActiveIds(states)|, refuses), states, n, busy, refuses)
  {
    var want := n - |ActiveIds(states)|;
    TryAllFacts(startable, want, refuses);
    TriesPursue(StartPlan(startable, want, refuses), Elems(startable), states, n, busy, refuses);
  }

  lemma StopPursues(active: seq<MachineId>, states: States, n: int, busy: BusyReport, refuses: set<MachineId>)
    requires IsListing(active, ActiveIds(states)) && |ActiveIds(states)| > n && !busy.Unreadable?
    ensures Pursues(StopPlan(active, |ActiveIds(states)| - n, busy, refuses), states, n, busy, refuses)
  {
    var excess := |ActiveIds(states)| - n;
    SkippedIsBusy(active, states, busy);
    TriesFacts(active, excess, Skipped(active, busy), refuses, Candidates(states, n, busy));
    TriesPursue(StopPlan(active, excess, busy, refuses), Candidates(states, n, busy), states, n, busy, refuses);
  }

  lemma SkippedIsBusy(active: seq<MachineId>, states: States, busy: BusyReport)
    requires IsListing(active, ActiveIds(states))
    ensures Skipped(active, busy) == BusyIds(states, busy)
  {
    assert forall id :: id in active <==> id in Elems(active);
  }

  /** A plan that tries nothing, because nothing is wanted or nobody may be tried. */
  lemma EmptyPursues(p: Plan, states: States, n: int, busy: BusyReport, refuses: set<MachineId>)
    requires p.tried == [] && p.want == Distance(states, n)
    requires p.starting == (|ActiveIds(states)| <= n)
    requires p.blocked == (|ActiveIds(states)| > n && busy.Unreadable?)
    requires p.want == 0 || p.blocked
    ensures Pursues(p, states, n, busy, refuses)
  {
    assert Elems(p.tried) == {};
    if p.blocked {
      assert Candidates(states, n, busy) - refuses == {};
    }
  }

  predicate IdsAscend(ids: seq<MachineId>) {
    forall i, j :: 0 <= i < j < |ids| ==> Less(ids[i].text, ids[j].text)
  }

  lemma {:induction false} IdsWhereAscend(ms: seq<Machine>, p: MachineState -> bool)
    requires Sorted(BY_ID, ms) && DistinctKeys(BY_ID, ms)
    ensures IdsAscend(IdsWhere(ms, p))
  {
    if ms != [] {
      var n := |ms| - 1;
      var t := IdsWhere(ms[..n], p);
      IdsWhereAscend(ms[..n], p);
      IdsWhereFacts(ms[..n], p);
      forall j | 0 <= j < |t| ensures Less(t[j].text, ms[n].id.text) {
        assert t[j] in t;
        var i :| 0 <= i < n && ms[..n][i].id == t[j];
        assert BY_ID(ms[i]) == t[j].text && BY_ID(ms[n]) == ms[n].id.text;
        LessIsConnected(t[j].text, ms[n].id.text);
      }
    }
  }

  lemma {:induction false} WithoutAscends(ids: seq<MachineId>, s: set<MachineId>)
    requires IdsAscend(ids)
    ensures IdsAscend(Without(ids, s))
  {
    if ids != [] {
      var n := |ids| - 1;
      var w := Without(ids[..n], s);
      WithoutAscends(ids[..n], s);
      WithoutElems(ids[..n], s);
      forall j | 0 <= j < |w| ensures Less(w[j].text, ids[n].text) {
        assert w[j] in Elems(w);
        var i :| 0 <= i < n && ids[..n][i] == w[j];
      }
    }
  }

  /** Trying an ascending list reaches for the smallest ids first. */
  lemma PlanOrder(ids: seq<MachineId>, want: nat, skip: set<MachineId>, refuses: set<MachineId>)
    requires IdsAscend(ids)
    ensures var tried := Tries(ids, want, skip, refuses);
      && IdsAscend(tried)
      && forall i, id :: 0 <= i < |tried| && id in Elems(ids) - skip && id !in tried ==> Less(tried[i].text, id.text)
  {
    var tried, w := Tries(ids, want, skip, refuses), Without(ids, skip);
    TriesAreFirst(ids, want, skip, refuses);
    WithoutAscends(ids, skip);
    WithoutElems(ids, skip);
    forall i, id | 0 <= i < |tried| && id in Elems(ids) - skip && id !in tried ensures Less(tried[i].text, id.text) {
      assert id in Elems(w);
      var k :| 0 <= k < |w| && w[k] == id;
      assert forall j :: 0 <= j < |tried| ==> tried[j] == w[j];
      assert k >= |tried|;
    }
  }

  /** Which of the three cases a call is in, in terms of the app's machines. */
  lemma PlanCases(ms: seq<Machine>, states: States, n: int, busy: BusyReport, refuses: set<MachineId>)
    returns (active: seq<MachineId>, startable: seq<MachineId>)
    requires Lists(ms, states)
    ensures IsListing(active, ActiveIds(states)) && IsListing(startable, StartableIds(states))
    ensures IdsAscend(active) && IdsAscend(startable)
    ensures var a := |ActiveIds(states)|;
      PlanFor(ms, n, busy, refuses) ==
        if a < n then StartPlan(startable, n - a, refuses)
        else if a > n then StopPlan(active, a - n, busy, refuses)
        else Plan(true, [], 0, false)
  {
    active, startable := SplitListing(ms, states);
    assert PlanFor(ms, n, busy, refuses) == PlanSorted(Sort(BY_ID, ms), n, busy, refuses);
  }

  /** The two lists a call works with. */
  lemma SplitListing(ms: seq<Machine>, states: States) returns (active: seq<MachineId>, startable: seq<MachineId>)
    requires Lists(ms, states)
    ensures active == IdsWhere(Sort(BY_ID, ms), IS_ACTIVE) && startable == IdsWhere(Sort(BY_ID, ms), IS_STARTABLE)
    ensures IsListing(active, ActiveIds(states)) && IsListing(startable, StartableIds(states))
    ensures |active| == |ActiveIds(states)|
    ensures IdsAscend(active) && IdsAscend(startable)
  {
    var sorted := Sort(BY_ID, ms);
    SortedLists(ms, states);
    ListedIds(sorted, states);
    ListedAscend(ms, states, IS_ACTIVE);
    ListedAscend(ms, states, IS_STARTABLE);
    active, startable := IdsWhere(sorted, IS_ACTIVE), IdsWhere(sorted, IS_STARTABLE);
  }

  lemma PlanPursues(ms: seq<Machine>, states: States, n: int, busy: BusyReport, refuses: set<MachineId>)
    requires Lists(ms, states)
    ensures Pursues(PlanFor(ms, n, busy, refuses), states, n, busy, refuses)
  {
    var active, startable := PlanCases(ms, states, n, busy, refuses);
    var p := PlanFor(ms, n, busy, refuses);
    if |ActiveIds(states)| < n {
      StartPursues(startable, states, n, busy, refuses);
    } else if |ActiveIds(states)| > n && !busy.Unreadable? {
      StopPursues(active, states, n, busy, refuses);
    } else {
      EmptyPursues(p, states, n, busy, refuses);
    }
  }

  lemma WonFacts(p: Plan, states: States, n: int, busy: BusyReport, refuses: set<MachineId>)
    requires Pursues(p, states, n, busy, refuses)
    ensures |Elems(p.Won(refuses))| == |p.Won(refuses)|
    ensures Elems(p.Won(refuses)) <= Candidates(states, n, busy)
  {
    WithoutElems(p.tried, refuses);
    WithoutNoDup(p.tried, refuses);
    NoDupCard(p.Won(refuses));
  }

  lemma ActiveMoved(states: States, moved: set<MachineId>)
    ensures moved <= StartableIds(states) ==>
      && ActiveIds(Moved(states, moved, Starting)) == ActiveIds(states) + moved
      && ActiveIds(states) !! moved
    ensures ActiveIds(Moved(states, moved, Stopping)) == ActiveIds(states) - moved
  {
  }

  lemma ActiveAfter(p: Plan, states: States, n: int, busy: BusyReport, refuses: set<MachineId>)
    requires Pursues(p, states, n, busy, refuses)
    ensures var won := Elems(p.Won(refuses));
      ActiveIds(p.After(states, refuses)) == if p.starting then ActiveIds(states) + won else ActiveIds(states) - won
    ensures |ActiveIds(p.After(states, refuses))|
            == if p.starting then |ActiveIds(states)| + |p.Won(refuses)| else |ActiveIds(states)| - |p.Won(refuses)|
  {
    var won := Elems(p.Won(refuses));
    WonFacts(p, states, n, busy, refuses);
    ActiveMoved(states, won);
    CardSum(ActiveIds(states), won);
  }

  lemma CardSum(a: set<MachineId>, b: set<MachineId>)
    ensures a !! b ==> |a + b| == |a| + |b|
    ensures b <= a ==> |a - b| == |a| - |b|
  {
    if b <= a {
      assert a == (a - b) + b;
    }
  }

  /** The pool approaches n exactly as far as its machines allow, never past it:
      up by the startable machines whose start succeeds, down by the idle active
      ones whose stop succeeds. No machine is tried twice. */
  lemma ApproachesTarget(ms: seq<Machine>, states: States, n: int, busy: BusyReport, refuses: set<MachineId>)
    requires Lists(ms, states)
    ensures var p := PlanFor(ms, n, busy, refuses);
      var a, b := |ActiveIds(states)|, |ActiveIds(p.After(states, refuses))|;
      && NoDup(p.tried)
      && (a <= n ==> b == a + Smaller(n - a, |StartableIds(states) - refuses|) <= n)
      && (a > n && !busy.Unreadable? ==>
            b == a - Smaller(a - n, |ActiveIds(states) - BusyIds(states, busy) - refuses|) >= n)
      && (a > n && busy.Unreadable? ==> p.tried == [] && b == a)
  {
    var p := PlanFor(ms, n, busy, refuses);
    PlanPursues(ms, states, n, busy, refuses);
    ActiveAfter(p, states, n, busy, refuses);
    Unreadable(p, states, n, busy, refuses);
  }

  lemma Unreadable(p: Plan, states: States, n: int, busy: BusyReport, refuses: set<MachineId>)
    requires Pursues(p, states, n, busy, refuses)
    ensures p.blocked ==> p.tried == [] && p.Won(refuses) == []
  {
    NoDupCard(p.tried);
  }

  /** Short of its target without an error, a plan has moved every candidate. */
  lemma CalmPlan(p: Plan, states: States, n: int, busy: BusyReport, refuses: set<MachineId>)
    requires Pursues(p, states, n, busy, refuses) && !p.Fails(refuses) && |p.Won(refuses)| < p.want
    ensures Elems(p.Won(refuses)) == Candidates(states, n, busy)
  {
    WithoutElems(p.tried, refuses);
    WithoutNothing(p.tried, refuses);
    forall id | id in Elems(p.tried) ensures id in Elems(p.tried) - refuses {
      assert id !in Elems(p.tried) * refuses;
    }
  }

  lemma ReachedTarget(p: Plan, states: States, n: int, busy: BusyReport, refuses: set<MachineId>)
    requires Pursues(p, states, n, busy, refuses)
    ensures |p.Won(refuses)| <= p.want
    ensures |ActiveIds(p.After(states, refuses))| == n <==> |p.Won(refuses)| == p.want
    ensures p.starting ==> |ActiveIds(p.After(states, refuses))| <= n
    ensures !p.starting ==> |ActiveIds(p.After(states, refuses))| >= n
  {
    ActiveAfter(p, states, n, busy, refuses);
  }

  /** No error means nothing more could be done: the count is n, or every
      startable machine was started, or every machine still active is busy. */
  lemma NoErrorMeansDone(ms: seq<Machine>, states: States, n: int, busy: BusyReport, refuses: set<MachineId>)
    requires Lists(ms, states) && !PlanFor(ms, n, busy, refuses).Fails(refuses)
    ensures var after := PlanFor(ms, n, busy, refuses).After(states, refuses);
      || |ActiveIds(after)| == n
      || (|ActiveIds(after)| < n && StartableIds(states) <= ActiveIds(after))
      || (|ActiveIds(after)| > n && ActiveIds(after) <= BusyIds(states, busy))
  {
    var p := PlanFor(ms, n, busy, refuses);
    PlanPursues(ms, states, n, busy, refuses);
    ReachedTarget(p, states, n, busy, refuses);
    if |p.Won(refuses)| < p.want {
      CalmPlan(p, states, n, busy, refuses);
      ActiveAfter(p, states, n, busy, refuses);
    }
  }

  /** A start reports an error exactly when it falls short of n and some startable
      machine refused; failures that others covered are forgiven. A stop reports
      every refusal it meets, covered or not. */
  lemma ErrorsExactly(ms: seq<Machine>, states: States, n: int, busy: BusyReport, refuses: set<MachineId>)
    requires Lists(ms, states)
    ensures var p := PlanFor(ms, n, busy, refuses);
      && (|ActiveIds(states)| <= n ==>
            (p.Fails(refuses) <==>
              |ActiveIds(p.After(states, refuses))| < n && StartableIds(states) * refuses != {}))
      && (|ActiveIds(states)| > n ==>
            (p.Fails(refuses) <==> busy.Unreadable? || Elems(p.tried) * refuses != {}))
  {
    var p := PlanFor(ms, n, busy, refuses);
    PlanPursues(ms, states, n, busy, refuses);
    ActiveAfter(p, states, n, busy, refuses);
    WithoutNothing(p.tried, refuses);
  }

  /** Which states count as running, which can be started, and how a machine's own
      progress changes that: an accepted start or stop shows at once, and its
      completion changes the count no further. */
  lemma StatesInWords(states: States, id: MachineId)
    requires id in states
    ensures id in ActiveIds(states) <==> states[id] in {Starting, Started}
    ensures id in StartableIds(states) <==> states[id] in {Created, Stopped, Suspended}
    ensures ActiveIds(states) !! StartableIds(states)
    ensures states[id] == Starting ==> ActiveIds(states[id := Started]) == ActiveIds(states)
    ensures states[id] == Stopping ==> ActiveIds(states[id := Stopped]) == ActiveIds(states)
    ensures states[id] == Stopping ==> StartableIds(states[id := Stopped]) == StartableIds(states) + {id}
  {
  }

  /** A name has a suffix exactly when something goes before it. */
  lemma SuffixInWords(name: string, id: string)
    ensures HasSuffix(name, id) <==> exists prefix: string :: name == prefix + id
  {
    if HasSuffix(name, id) {
      assert name == name[..|name| - |id|] + id;
    }
    if prefix: string :| name == prefix + id {
      assert name[|name| - |id|..] == id;
    }
  }

  lemma StartsInOrder(startable: seq<MachineId>, states: States, want: nat, refuses: set<MachineId>)
    requires IsListing(startable, StartableIds(states)) && IdsAscend(startable)
    ensures var tried := StartPlan(startable, want, refuses).tried;
      && IdsAscend(tried)
      && forall i, id :: 0 <= i < |tried| && id in StartableIds(states) && id !in tried ==> Less(tried[i].text, id.text)
  {
    PlanOrder(startable, want, NOBODY, refuses);
    assert Elems(startable) - NOBODY == StartableIds(states);
  }

  lemma StopsInOrder(active: seq<MachineId>, states: States, excess: nat, busy: BusyReport, refuses: set<MachineId>)
    requires IsListing(active, ActiveIds(states)) && IdsAscend(active) && !busy.Unreadable?
    ensures var tried := StopPlan(active, excess, busy, refuses).tried;
      && IdsAscend(tried)
      && forall i, id :: 0 <= i < |tried| && id in ActiveIds(states) - BusyIds(states, busy) && id !in tried
           ==> Less(tried[i].text, id.text)
  {
    SkippedIsBusy(active, states, busy);
    PlanOrder(active, excess, Skipped(active, busy), refuses);
  }

  lemma ListedAscend(ms: seq<Machine>, states: States, p: MachineState -> bool)
    requires Lists(ms, states)
    ensures IdsAscend(IdsWhere(Sort(BY_ID, ms), p))
  {
    SortSorts(BY_ID, ms);
    IdsWhereAscend(Sort(BY_ID, ms), p);
  }

  /** The calls p makes reach for the smallest ids first, and skip none of candidates. */
  ghost predicate InOrder(p: Plan, candidates: set<MachineId>) {
    && IdsAscend(p.tried)
    && forall i, id :: 0 <= i < |p.tried| && id in candidates && id !in p.tried ==> Less(p.tried[i].text, id.text)
  }

  /** A call starts machines or stops them, towards the target, smallest ids first. */
  lemma CallsInOrder(ms: seq<Machine>, states: States, n: int, busy: BusyReport, refuses: set<MachineId>)
    requires Lists(ms, states)
    ensures var p := PlanFor(ms, n, busy, refuses);
      && p.Ops() == (if |ActiveIds(states)| < n then Starts(p.tried) else Stops(p.tried))
      && (|ActiveIds(states)| == n ==> p.tried == [])
      && InOrder(p, Candidates(states, n, busy))
  {
    var active, startable := PlanCases(ms, states, n, busy, refuses);
    var p := PlanFor(ms, n, busy, refuses);
    if |ActiveIds(states)| < n {
      assert p == StartPlan(startable, n - |ActiveIds(states)|, refuses);
      StartsInOrder(startable, states, n - |ActiveIds(states)|, refuses);
      assert InOrder(p, StartableIds(states));
    } else if |ActiveIds(states)| > n && !busy.Unreadable? {
      assert p == StopPlan(active, |ActiveIds(states)| - n, busy, refuses);
      StopsInOrder(active, states, |ActiveIds(states)| - n, busy, refuses);
      assert InOrder(p, ActiveIds(states) - BusyIds(states, busy));
    } else {
      assert p.tried == [];
    }
  }

  /** Any two listings of the same machines lead to the same calls in the same
      order, and to the same verdict. */
  lemma ListingOrderIsImmaterial(ms1: seq<Machine>, ms2: seq<Machine>, n: int, busy: BusyReport, refuses: set<MachineId>)
    requires DistinctKeys(BY_ID, ms1) && DistinctKeys(BY_ID, ms2) && multiset(ms1) == multiset(ms2)
    ensures PlanFor(ms1, n, busy, refuses) == PlanFor(ms2, n, busy, refuses)
  {
    SortIgnoresOrder(BY_ID, ms1, ms2);
  }

  /** No machine whose runner `<prefix>-<id>` is reported busy is stopped, for any
      target; with an unreadable report nothing is stopped at all. */
  lemma BusyMachinesAreNotStopped(ms: seq<Machine>, states: States, n: int, busy: BusyReport,
                                  refuses: set<MachineId>, id: MachineId, prefix: string)
    requires Lists(ms, states)
    requires busy.Unreadable? || (busy.Names? && prefix + "-" + id.text in busy.names)
    ensures StopOp(id) !in PlanFor(ms, n, busy, refuses).Ops()
  {
    var p := PlanFor(ms, n, busy, refuses);
    PlanPursues(ms, states, n, busy, refuses);
    if busy.Names? {
      var name := prefix + "-" + id.text;
      assert name[|name| - |id.text|..] == id.text;
      assert HasSuffix(name, id.text);
    }
    forall i | 0 <= i < |p.Ops()| ensures p.Ops()[i] != StopOp(id) {
      assert p.tried[i] in Elems(p.tried);
    }
  }

  // ------------------------------------------------------------------
  // The code
  // ------------------------------------------------------------------

  /** The states after trying some machines. */
  function AfterTrying(states: States, tried: seq<MachineId>, refuses: set<MachineId>, s: MachineState): States {
    Moved(states, Elems(Without(tried, refuses)), s)
  }

  lemma AfterTryingNone(states: States, refuses: set<MachineId>, s: MachineState)
    ensures AfterTrying(states, [], refuses, s) == states
  {
    assert Elems(Without([], refuses)) == {};
  }

  lemma MovedOne(states: States, moved: set<MachineId>, s: MachineState, id: MachineId)
    requires id in states
    ensures Moved(states, moved + {id}, s) == Moved(states, moved, s)[id := s]
  {
    var a, b := Moved(states, moved + {id}, s), Moved(states, moved, s)[id := s];
    assert a.Keys == b.Keys;
  }

  lemma AfterTryingOne(states: States, tried: seq<MachineId>, refuses: set<MachineId>, s: MachineState, id: MachineId)
    requires id in states
    ensures var before := AfterTrying(states, tried, refuses, s);
      AfterTrying(states, tried + [id], refuses, s) == if id in refuses then before else before[id := s]
    ensures |Without(tried + [id], refuses)| == |Without(tried, refuses)| + if id in refuses then 0 else 1
  {
    WithoutSnoc(tried, id, refuses);
    var won := Without(tried, refuses);
    if id in refuses {
      assert Without(tried + [id], refuses) == won;
    } else {
      ElemsAppend(won, id);
      MovedOne(states, Elems(won), s, id);
    }
  }

  lemma OpsOne(tried: seq<MachineId>, id: MachineId)
    ensures Starts(tried + [id]) == Starts(tried) + [StartOp(id)]
    ensures Stops(tried + [id]) == Stops(tried) + [StopOp(id)]
  {
  }

  lemma IdsWhereAt(ms: seq<Machine>, i: nat, p: MachineState -> bool)
    requires i < |ms|
    ensures IdsWhere(ms[..i + 1], p) == IdsWhere(ms[..i], p) + if p(ms[i].state) then [ms[i].id] else []
  {
    assert ms[..i + 1][..i] == ms[..i];
  }

  lemma ListedBelong(ms: seq<Machine>, states: States)
    requires Lists(ms, states)
    ensures forall id :: id in IdsWhere(Sort(BY_ID, ms), IS_ACTIVE) ==> id in states
    ensures forall id :: id in IdsWhere(Sort(BY_ID, ms), IS_STARTABLE) ==> id in states
  {
    var sorted := Sort(BY_ID, ms);
    SortedLists(ms, states);
    ListedIds(sorted, states);
    assert forall id :: id in IdsWhere(sorted, IS_ACTIVE) ==> id in Elems(IdsWhere(sorted, IS_ACTIVE));
    assert forall id :: id in IdsWhere(sorted, IS_STARTABLE) ==> id in Elems(IdsWhere(sorted, IS_STARTABLE));
  }

  class FlyPool {
    const app: App

    constructor (app: App)
      ensures this.app == app
    {
      this.app := app;
    }

    /** How many machines run or are about to. */
    method Replicas() returns (count: Option<int>, ghost listing: Option<seq<Machine>>)
      modifies app`listings
      ensures app.listings == old(app.listings) + [listing]
      ensures count.None? <==> listing.None?
      ensures count.Some? ==> count.value == |ActiveIds(app.states)|
    {
      var found := app.ListMachines();
      listing := found;
      if found.None? {
        return None, listing;
      }
      var n := CountActive(found.value);
      ListedIds(found.value, app.states);
      return Some(n), listing;
    }

    method CountActive(ms: seq<Machine>) returns (n: nat)
      ensures n == |IdsWhere(ms, IS_ACTIVE)|
    {
      n := 0;
      for i := 0 to |ms|
        invariant n == |IdsWhere(ms[..i], IS_ACTIVE)|
      {
        IdsWhereAt(ms, i, IS_ACTIVE);
        if Active(ms[i].state) {
          n := n + 1;
        }
      }
      assert ms[..|ms|] == ms;
    }

    /** Splits sorted machines into the active and the startable. */
    method Partition(ms: seq<Machine>) returns (active: seq<MachineId>, startable: seq<MachineId>)
      ensures active == IdsWhere(ms, IS_ACTIVE) && startable == IdsWhere(ms, IS_STARTABLE)
    {
      active, startable := [], [];
      for i := 0 to |ms|
        invariant active == IdsWhere(ms[..i], IS_ACTIVE)
        invariant startable == IdsWhere(ms[..i], IS_STARTABLE)
      {
        IdsWhereAt(ms, i, IS_ACTIVE);
        IdsWhereAt(ms, i, IS_STARTABLE);
        if Active(ms[i].state) {
          active := active + [ms[i].id];
        } else if Startable(ms[i].state) {
          startable := startable + [ms[i].id];
        }
      }
      assert ms[..|ms|] == ms;
    }

    /** One more start, after those in tried. */
    method TryStart(id: MachineId, ghost was: States, ghost ops: seq<Op>, ghost tried: seq<MachineId>) returns (ok: bool)
      requires id in was && id in app.states
      requires app.ops == ops + Starts(tried) && app.states == AfterTrying(was, tried, app.refuses, Starting)
      modifies app`states, app`ops
      ensures app.ops == ops + Starts(tried + [id])
      ensures app.states == AfterTrying(was, tried + [id], app.refuses, Starting)
      ensures ok <==> id !in app.refuses
      ensures |Without(tried + [id], app.refuses)| == |Without(tried, app.refuses)| + if ok then 1 else 0
    {
      AfterTryingOne(was, tried, app.refuses, Starting, id);
      OpsOne(tried, id);
      ok := app.Start(id);
    }

    method StartUpTo(want: nat, startable: seq<MachineId>) returns (started: nat, errs: nat)
      requires forall id :: id in startable ==> id in app.states
      modifies app`states, app`ops
      ensures var tried := Tries(startable, want, NOBODY, app.refuses);
        && app.ops == old(app.ops) + Starts(tried)
        && app.states == AfterTrying(old(app.states), tried, app.refuses, Starting)
        && started == |Without(tried, app.refuses)| && errs == |tried| - started
    {
      started, errs := 0, 0;
      ghost var tried: seq<MachineId> := [];
      AfterTryingNone(app.states, app.refuses, Starting);
      var i := 0;
      while i < |startable| && started != want
        invariant 0 <= i <= |startable| && started <= want
        invariant Underway(startable, want, NOBODY, app.refuses, i, want - started, tried)
        invariant app.ops == old(app.ops) + Starts(tried)
        invariant app.states == AfterTrying(old(app.states), tried, app.refuses, Starting)
        invariant started == |Without(tried, app.refuses)| && errs == |tried| - started
      {
        var id := startable[i];
        TryNext(startable, want, NOBODY, app.refuses, i, want - started, tried);
        assert id !in NOBODY;
        i := i + 1;
        var ok := TryStart(id, old(app.states), old(app.ops), tried);
        if !ok {
          errs := errs + 1;
        } else {
          started := started + 1;
        }
        tried := tried + [id];
      }
      TriedEnough(startable, want, NOBODY, app.refuses, i, want - started, tried);
    }

    method StartSome(want: nat, startable: seq<MachineId>) returns (failed: bool)
      requires forall id :: id in startable ==> id in app.states
      modifies app`states, app`ops
      ensures var p := StartPlan(startable, want, app.refuses);
        && app.ops == old(app.ops) + p.Ops()
        && app.states == p.After(old(app.states), app.refuses)
        && failed == p.Fails(app.refuses)
    {
      var started, errs := StartUpTo(want, startable);
      failed := started < want && errs > 0;
    }

    /** The active machines that some busy runner's name ends in. */
    method FindBusy(active: seq<MachineId>, names: seq<string>) returns (busy: set<MachineId>)
      ensures busy == Protected(active, names)
    {
      busy := {};
      for i := 0 to |active|
        invariant busy == Protected(active[..i], names)
      {
        var id := active[i];
        var found := false;
        for j := 0 to |names|
          invariant found <==> exists name :: name in names[..j] && HasSuffix(name, id.text)
          invariant busy == Protected(active[..i], names) + if found then {id} else {}
        {
          assert names[..j + 1] == names[..j] + [names[j]];
          if HasSuffix(names[j], id.text) {
            busy := busy + {id};
            found := true;
          }
        }
        assert names[..|names|] == names;
        assert active[..i + 1] == active[..i] + [id];
      }
      assert active[..|active|] == active;
    }

    method StopSome(excess: nat, active: seq<MachineId>, busy: BusyReport) returns (failed: bool)
      requires forall id :: id in active ==> id in app.states
      modifies app`states, app`ops
      ensures var p := StopPlan(active, excess, busy, app.refuses);
        && app.ops == old(app.ops) + p.Ops()
        && app.states == p.After(old(app.states), app.refuses)
        && failed == p.Fails(app.refuses)
    {
      if busy.Unreadable? {
        AfterTryingNone(app.states, app.refuses, Stopping);
        return true;
      }
      var skip: set<MachineId> := {};
      if busy.Names? {
        skip := FindBusy(active, busy.names);
      }
      failed := StopIdle(excess, active, skip);
    }

    /** One more stop, after those in tried. */
    method TryStop(id: MachineId, ghost was: States, ghost ops: seq<Op>, ghost tried: seq<MachineId>) returns (ok: bool)
      requires id in was && id in app.states
      requires app.ops == ops + Stops(tried) && app.states == AfterTrying(was, tried, app.refuses, Stopping)
      modifies app`states, app`ops
      ensures app.ops == ops + Stops(tried + [id])
      ensures app.states == AfterTrying(was, tried + [id], app.refuses, Stopping)
      ensures ok <==> id !in app.refuses
      ensures |Without(tried + [id], app.refuses)| == |Without(tried, app.refuses)| + if ok then 1 else 0
    {
      AfterTryingOne(was, tried, app.refuses, Stopping, id);
      OpsOne(tried, id);
      ok := app.Stop(id);
    }

    method StopIdle(excess: nat, active: seq<MachineId>, skip: set<MachineId>) returns (failed: bool)
      requires forall id :: id in active ==> id in app.states
      modifies app`states, app`ops
      ensures var tried := Tries(active, excess, skip, app.refuses);
        && app.ops == old(app.ops) + Stops(tried)
        && app.states == AfterTrying(old(app.states), tried, app.refuses, Stopping)
        && (failed <==> |Without(tried, app.refuses)| < |tried|)
    {
      var stopped, errs := 0, 0;
      ghost var tried: seq<MachineId> := [];
      AfterTryingNone(app.states, app.refuses, Stopping);
      var i := 0;
      while i < |active| && stopped != excess
        invariant 0 <= i <= |active| && stopped <= excess
        invariant Underway(active, excess, skip, app.refuses, i, excess - stopped, tried)
        invariant app.ops == old(app.ops) + Stops(tried)
        invariant app.states == AfterTrying(old(app.states), tried, app.refuses, Stopping)
        invariant stopped == |Without(tried, app.refuses)| && errs == |tried| - stopped
      {
        var id := active[i];
        TryNext(active, excess, skip, app.refuses, i, excess - stopped, tried);
        i := i + 1;
        if id !in skip {
          var ok := TryStop(id, old(app.states), old(app.ops), tried);
          if !ok {
            errs := errs + 1;
          } else {
            stopped := stopped + 1;
          }
          tried := tried + [id];
        }
      }
      TriedEnough(active, excess, skip, app.refuses, i, excess - stopped, tried);
      failed := errs > 0;
    }

    /** Moves machines given in id order towards n active ones. */
    method Approach(n: int, sorted: seq<Machine>, busy: BusyReport) returns (failed: bool)
      requires forall id :: id in IdsWhere(sorted, IS_ACTIVE) ==> id in app.states
      requires forall id :: id in IdsWhere(sorted, IS_STARTABLE) ==> id in app.states
      modifies app`states, app`ops
      ensures var p := PlanSorted(sorted, n, busy, app.refuses);
        && app.ops == old(app.ops) + p.Ops()
        && app.states == p.After(old(app.states), app.refuses)
        && failed == p.Fails(app.refuses)
    {
      var active, startable := Partition(sorted);
      ghost var p := PlanSorted(sorted, n, busy, app.refuses);
      if |active| < n {
        assert p == StartPlan(startable, n - |active|, app.refuses);
        failed := StartSome(n - |active|, startable);
      } else if |active| > n {
        assert p == StopPlan(active, |active| - n, busy, app.refuses);
        failed := StopSome(|active| - n, active, busy);
      } else {
        failed := false;
        assert p.tried == [] && p.Ops() == [] && p.Won(app.refuses) == [];
        AfterTryingNone(app.states, app.refuses, Starting);
      }
    }

    /** Starts or stops machines until n are active. */
    method SetReplicas(n: int, busy: BusyReport) returns (failed: bool, ghost listing: Option<seq<Machine>>)
      modifies app
      ensures app.listings == old(app.listings) + [listing]
      ensures listing.None? ==> failed && app.ops == old(app.ops) && app.states == old(app.states)
      ensures listing.Some? ==>
        var p := PlanFor(listing.value, n, busy, app.refuses);
        && Lists(listing.value, old(app.states))
        && app.ops == old(app.ops) + p.Ops()
        && app.states == p.After(old(app.states), app.refuses)
        && failed == p.Fails(app.refuses)
    {
      var found := app.ListMachines();
      listing := found;
      if found.None? {
        return true, listing;
      }
      ListedBelong(found.value, app.states);
      failed := Approach(n, Sort(BY_ID, found.value), busy);
    }
  }
}
