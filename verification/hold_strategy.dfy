// Composition-level holds over several TAUs and the progressive unblock after fail-closed
// (tenir_governance/composition/hold_strategy.py).
module HoldStrategy {
  import opened Wrappers

  // A lower value is a higher priority.
  datatype Tau = Tau(priority: int, held: bool, violated: bool)

  type Taus = map<string, Tau>

  datatype Strategy = PriorityEnforce | Serialize | ParetoRestore | Escalate | FailClosedCollectif

  datatype Conflict = C1 | C2 | C3 | C4 | TauKExpired

  predicate Applies(s: Strategy, c: Conflict) {
    match s
    case PriorityEnforce => c == C1 || c == C2
    case Serialize => c == C1 || c == C2 || c == C3
    case ParetoRestore => c == C1
    case Escalate => c == C1 || c == C2 || c == C3
    case FailClosedCollectif => c == C4 || c == TauKExpired
  }

  // ---------------------------------------------------------------- stable order

  predicate Distinct(ids: seq<string>) {
    forall i, j :: 0 <= i < j < |ids| ==> ids[i] != ids[j]
  }

  function Rank(taus: Taus): string -> int {
    id => if id in taus then taus[id].priority else 0
  }

  predicate Ordered(ids: seq<string>, rank: string -> int) {
    forall i, j :: 0 <= i < j < |ids| ==> rank(ids[i]) <= rank(ids[j])
  }

  // Insert after everything of the same or higher priority.
  function Insert(ids: seq<string>, rank: string -> int, x: string): seq<string> {
    if ids == [] || rank(ids[|ids| - 1]) <= rank(x) then ids + [x]
    else Insert(ids[..|ids| - 1], rank, x) + [ids[|ids| - 1]]
  }

  // sorted(ids, key=rank), which keeps equal ranks in their given order.
  function Sorted(ids: seq<string>, rank: string -> int): seq<string> {
    if ids == [] then [] else Insert(Sorted(ids[..|ids| - 1], rank), rank, ids[|ids| - 1])
  }

  lemma {:induction false} InsertKeepsAll(ids: seq<string>, rank: string -> int, x: string)
    ensures multiset(Insert(ids, rank, x)) == multiset(ids) + multiset{x}
  {
    if ids != [] && rank(ids[|ids| - 1]) > rank(x) {
      InsertKeepsAll(ids[..|ids| - 1], rank, x);
      assert ids == ids[..|ids| - 1] + [ids[|ids| - 1]];
    }
  }

  lemma {:induction false} InsertKeepsOrder(ids: seq<string>, rank: string -> int, x: string)
    requires Ordered(ids, rank)
    ensures Ordered(Insert(ids, rank, x), rank)
  {
    if ids != [] && rank(ids[|ids| - 1]) > rank(x) {
      var (init, last) := (ids[..|ids| - 1], ids[|ids| - 1]);
      InsertKeepsOrder(init, rank, x);
      InsertKeepsAll(init, rank, x);
      var r := Insert(init, rank, x);
      forall i | 0 <= i < |r| ensures rank(r[i]) <= rank(last) {
        assert r[i] in multiset(r);
        assert r[i] in init || r[i] == x;
      }
    }
  }

  lemma {:induction false} SortSorts(ids: seq<string>, rank: string -> int)
    ensures multiset(Sorted(ids, rank)) == multiset(ids) && Ordered(Sorted(ids, rank), rank)
  {
    if ids != [] {
      var (init, last) := (ids[..|ids| - 1], ids[|ids| - 1]);
      SortSorts(init, rank);
      InsertKeepsAll(Sorted(init, rank), rank, last);
      InsertKeepsOrder(Sorted(init, rank), rank, last);
      assert ids == init + [last];
    }
  }

  // The TAUs of one rank, in the order they appear.
  function Class(ids: seq<string>, rank: string -> int, p: int): seq<string> {
    if ids == [] then []
    else
      var rest := Class(ids[..|ids| - 1], rank, p);
      if rank(ids[|ids| - 1]) == p then rest + [ids[|ids| - 1]] else rest
  }

  lemma ClassOfOneMore(ids: seq<string>, rank: string -> int, x: string, p: int)
    ensures Class(ids + [x], rank, p) == if rank(x) == p then Class(ids, rank, p) + [x] else Class(ids, rank, p)
  {
    assert (ids + [x])[..|ids|] == ids;
  }

  lemma {:induction false} InsertKeepsClass(ids: seq<string>, rank: string -> int, x: string, p: int)
    requires Ordered(ids, rank)
    ensures Class(Insert(ids, rank, x), rank, p) == Class(ids + [x], rank, p)
  {
    if ids != [] && rank(ids[|ids| - 1]) > rank(x) {
      var (init, last) := (ids[..|ids| - 1], ids[|ids| - 1]);
      InsertKeepsClass(init, rank, x, p);
      ClassOfOneMore(Insert(init, rank, x), rank, last, p);
      ClassOfOneMore(init, rank, x, p);
      ClassOfOneMore(ids, rank, x, p);
    }
  }

  lemma InsertClass(ids: seq<string>, rank: string -> int, x: string, p: int)
    requires Ordered(ids, rank)
    ensures Class(Insert(ids, rank, x), rank, p)
         == if rank(x) == p then Class(ids, rank, p) + [x] else Class(ids, rank, p)
  {
    InsertKeepsClass(ids, rank, x, p);
    ClassOfOneMore(ids, rank, x, p);
  }

  // The order is stable: within one rank nothing is reordered.
  lemma {:induction false} SortIsStable(ids: seq<string>, rank: string -> int, p: int)
    ensures Class(Sorted(ids, rank), rank, p) == Class(ids, rank, p)
  {
    if ids != [] {
      SortIsStable(ids[..|ids| - 1], rank, p);
      SortSorts(ids[..|ids| - 1], rank);
      InsertClass(Sorted(ids[..|ids| - 1], rank), rank, ids[|ids| - 1], p);
    }
  }

  lemma DistinctAsMultiset(a: seq<string>, b: seq<string>)
    requires Distinct(a) && multiset(a) == multiset(b)
    ensures Distinct(b) && |a| == |b| && forall x :: x in a <==> x in b
  {
    assert forall x :: (x in a <==> x in multiset(a)) && (x in b <==> x in multiset(b));
    assert |multiset(a)| == |a| && |multiset(b)| == |b|;
    forall i, j | 0 <= i < j < |b| ensures b[i] != b[j] {
      if b[i] == b[j] {
        AtLeastTwice(b, i, j);
        AtMostOnce(a, b[i]);
      }
    }
  }

  lemma AtLeastTwice(s: seq<string>, i: nat, j: nat)
    requires i < j < |s| && s[i] == s[j]
    ensures multiset(s)[s[i]] >= 2
  {
    assert s == s[..j] + s[j..];
    assert s[i] in s[..j] && s[j] in s[j..];
    assert multiset(s[..j])[s[i]] >= 1 && multiset(s[j..])[s[i]] >= 1;
  }

  lemma {:induction false} AtMostOnce(s: seq<string>, x: string)
    requires Distinct(s)
    ensures multiset(s)[x] <= 1
  {
    if s != [] {
      assert s == s[..|s| - 1] + [s[|s| - 1]];
      AtMostOnce(s[..|s| - 1], x);
      if x == s[|s| - 1] { assert x !in s[..|s| - 1]; }
    }
  }

  lemma SortListsAll(ids: seq<string>, rank: string -> int)
    requires Distinct(ids)
    ensures var r := Sorted(ids, rank);
      Distinct(r) && |r| == |ids| && Ordered(r, rank) && forall x :: x in ids <==> x in r
  {
    SortSorts(ids, rank);
    DistinctAsMultiset(ids, Sorted(ids, rank));
  }

  // ---------------------------------------------------------------- the manager on values

  datatype State = State(
    order: seq<string>, taus: Taus, holdActive: bool, failClosed: bool,
    unblockEnabled: bool, unblockOrder: seq<string>, unblockIndex: nat)

  predicate Known(ids: seq<string>, taus: Taus) {
    forall id :: id in ids ==> id in taus
  }

  predicate Valid(s: State) {
    && Distinct(s.order) && Known(s.order, s.taus)
    && (forall id :: id in s.taus ==> id in s.order)
    && Known(s.unblockOrder, s.taus) && s.unblockIndex <= |s.unblockOrder|
  }

  function SetHeld(taus: Taus, id: string, held: bool): Taus
    requires id in taus
  {
    taus[id := taus[id].(held := held)]
  }

  function AllHeld(taus: Taus): Taus { map id | id in taus :: taus[id].(held := true) }

  function Restored(taus: Taus): Taus { map id | id in taus :: taus[id].(held := taus[id].violated) }

  function AfterFailClosed(s: State): State {
    s.(failClosed := true, holdActive := true, taus := AllHeld(s.taus))
  }

  function AfterEnable(s: State): (t: State)
    requires Valid(s)
    ensures Valid(t)
  {
    SortListsAll(s.order, Rank(s.taus));
    s.(unblockEnabled := true, unblockOrder := Sorted(s.order, Rank(s.taus)), unblockIndex := 0)
  }

  function AfterNext(s: State, verified: bool): State
    requires Valid(s)
  {
    if !s.unblockEnabled || s.unblockIndex >= |s.unblockOrder| || !verified then s
    else
      var done := s.unblockIndex + 1 == |s.unblockOrder|;
      s.(taus := SetHeld(s.taus, s.unblockOrder[s.unblockIndex], false), unblockIndex := s.unblockIndex + 1,
         failClosed := s.failClosed && !done, holdActive := s.holdActive && !done)
  }

  function Unblocking(s: State, verified: seq<bool>): (t: State)
    requires Valid(s)
    ensures Valid(t)
  {
    if verified == [] then s else AfterNext(Unblocking(s, verified[..|verified| - 1]), verified[|verified| - 1])
  }

  function Accepted(verified: seq<bool>): nat {
    if verified == [] then 0
    else Accepted(verified[..|verified| - 1]) + if verified[|verified| - 1] then 1 else 0
  }

  function Least(a: nat, b: nat): nat { if a < b then a else b }

  // Progressive unblock at its start: everything is held and the order lists all of it.
  predicate Ready(s: State) {
    && Valid(s) && s.unblockEnabled && s.unblockIndex == 0 && s.failClosed && s.holdActive
    && Distinct(s.unblockOrder) && Ordered(s.unblockOrder, Rank(s.taus))
    && (forall id :: id in s.taus ==> s.taus[id].held && id in s.unblockOrder)
  }

  lemma FailClosedThenEnableIsReady(s: State)
    requires Valid(s)
    ensures Ready(AfterEnable(AfterFailClosed(s)))
    ensures |AfterEnable(AfterFailClosed(s)).unblockOrder| == |s.order|
  {
    var closed := AfterFailClosed(s);
    SortListsAll(closed.order, Rank(closed.taus));
  }

  // Where progressive unblock stands after some calls.
  ghost predicate Progress(s: State, t: State, released: nat) {
    && t.unblockOrder == s.unblockOrder && t.unblockEnabled && Valid(t)
    && t.unblockIndex == released <= |s.unblockOrder|
    && t.taus.Keys == s.taus.Keys
    && (forall i :: 0 <= i < |s.unblockOrder| ==> (t.taus[s.unblockOrder[i]].held <==> i >= released))
    && (t.failClosed <==> |s.unblockOrder| == 0 || released < |s.unblockOrder|)
    && t.holdActive == t.failClosed
  }

  lemma NextMakesProgress(s: State, t: State, released: nat, verified: bool)
    requires Ready(s) && Progress(s, t, released)
    ensures Progress(s, AfterNext(t, verified), Least(released + if verified then 1 else 0, |s.unblockOrder|))
  {}

  // As many TAUs are released as verified calls were made, exactly those that come first in
  // the priority order; the rest is held; and fail-closed is cleared exactly when the last
  // one is released. An empty composition is never cleared.
  lemma {:induction false} ProgressiveUnblock(s: State, verified: seq<bool>)
    requires Ready(s)
    ensures Progress(s, Unblocking(s, verified), Least(Accepted(verified), |s.unblockOrder|))
  {
    if verified != [] {
      var init := verified[..|verified| - 1];
      ProgressiveUnblock(s, init);
      NextMakesProgress(s, Unblocking(s, init), Least(Accepted(init), |s.unblockOrder|), verified[|verified| - 1]);
    }
  }

  // Releases go by priority, each TAU once, and the composition reopens with the last.
  lemma ReleasedByPriority(s: State, verified: seq<bool>, id: string)
    requires Ready(s) && id in s.taus
    ensures var t := Unblocking(s, verified);
      && id in t.taus && (t.taus[id].held <==> id !in t.unblockOrder[..t.unblockIndex])
      && (!t.taus[id].held ==> forall other :: other in t.taus && t.taus[other].held ==>
            Rank(s.taus)(id) <= Rank(s.taus)(other))
  {
    ProgressiveUnblock(s, verified);
    var t := Unblocking(s, verified);
    var k :| 0 <= k < |s.unblockOrder| && s.unblockOrder[k] == id;
    forall other | other in t.taus && t.taus[other].held && !t.taus[id].held
      ensures Rank(s.taus)(id) <= Rank(s.taus)(other)
    {
      var m :| 0 <= m < |s.unblockOrder| && s.unblockOrder[m] == other;
      assert k < m;
    }
  }

  lemma ReopensWithTheLast(s: State, verified: seq<bool>)
    requires Valid(s)
    ensures var t := Unblocking(AfterEnable(AfterFailClosed(s)), verified);
      !t.failClosed <==> s.order != [] && Accepted(verified) >= |s.order|
  {
    FailClosedThenEnableIsReady(s);
    ProgressiveUnblock(AfterEnable(AfterFailClosed(s)), verified);
  }

  // ---------------------------------------------------------------- strategies

  function HeldSet(taus: Taus): set<string> { set id | id in taus && taus[id].held }

  // Which TAUs are held after a strategy has been applied, given the priority order.
  function HeldAfter(strategy: Strategy, taus: Taus, sorted: seq<string>): set<string> {
    match strategy
    case PriorityEnforce => if sorted == [] then HeldSet(taus) else HeldSet(taus) - {sorted[0]}
    case Serialize => if sorted == [] then HeldSet(taus) else HeldSet(taus) - {sorted[0]}
    case ParetoRestore => set id | id in taus && taus[id].violated
    case Escalate => taus.Keys
    case FailClosedCollectif => taus.Keys
  }

  datatype Resolution = Resolution(held: seq<string>, released: seq<string>, vetoed: seq<string>, hold: bool)

  // The held, and the unheld, among some TAUs in their order.
  function Filtered(ids: seq<string>, taus: Taus): (r: seq<string>)
    ensures forall id :: id in r <==> id in ids && id in taus && taus[id].held
  {
    if ids == [] then []
    else if ids[0] in taus && taus[ids[0]].held then [ids[0]] + Filtered(ids[1..], taus)
    else Filtered(ids[1..], taus)
  }

  function Unheld(ids: seq<string>, taus: Taus): (r: seq<string>)
    ensures forall id :: id in r <==> id in ids && id in taus && !taus[id].held
  {
    if ids == [] then []
    else if ids[0] in taus && !taus[ids[0]].held then [ids[0]] + Unheld(ids[1..], taus)
    else Unheld(ids[1..], taus)
  }

  function Resolving(s: State, strategy: Strategy): (State, Resolution)
    requires Valid(s)
  {
    var sorted := Sorted(s.order, Rank(s.taus));
    SortListsAll(s.order, Rank(s.taus));
    match strategy
    case PriorityEnforce =>
      if sorted == [] then (s, Resolution([], [], [], false))
      else (s.(taus := SetHeld(s.taus, sorted[0], false), holdActive := false),
            Resolution([], [sorted[0]], sorted[1..], false))
    case Serialize =>
      if sorted == [] then (s, Resolution([], [], [], false))
      else
        var held := Filtered(sorted[1..], s.taus);
        (s.(taus := SetHeld(s.taus, sorted[0], false), holdActive := held != []),
         Resolution(held, [sorted[0]], [], held != []))
    case ParetoRestore =>
      var taus := Restored(s.taus);
      var held := Filtered(sorted, taus);
      (s.(taus := taus, holdActive := held != []), Resolution(held, Unheld(sorted, taus), [], held != []))
    case Escalate =>
      (s.(taus := AllHeld(s.taus), holdActive := true), Resolution(sorted, [], [], true))
    case FailClosedCollectif =>
      (s.(taus := AllHeld(s.taus), holdActive := true, failClosed := true), Resolution(sorted, [], [], true))
  }

  lemma HeldSets(taus: Taus, id: string)
    ensures HeldSet(AllHeld(taus)) == taus.Keys
    ensures HeldSet(Restored(taus)) == set x | x in taus && taus[x].violated
    ensures id in taus ==> HeldSet(SetHeld(taus, id, false)) == HeldSet(taus) - {id}
  {}

  predicate ReportsTruly(s: State, strategy: Strategy)
    requires Valid(s)
  {
    var (t, r) := Resolving(s, strategy);
    && (forall id :: id in r.held ==> id in HeldSet(t.taus))
    && (forall id :: id in r.released ==> id in t.taus && id !in HeldSet(t.taus))
  }

  lemma ReleaseReportsTruly(s: State, strategy: Strategy)
    requires Valid(s) && (strategy == PriorityEnforce || strategy == Serialize)
    ensures ReportsTruly(s, strategy)
  {
    var sorted := Sorted(s.order, Rank(s.taus));
    SortListsAll(s.order, Rank(s.taus));
    if sorted != [] { ReleasingTheHead(sorted, s.taus, Filtered(sorted[1..], s.taus)); }
  }

  lemma ReleasingTheHead(sorted: seq<string>, taus: Taus, held: seq<string>)
    requires sorted != [] && Distinct(sorted) && Known(sorted, taus)
    requires forall id :: id in held ==> id in sorted[1..] && id in taus && taus[id].held
    ensures var t := SetHeld(taus, sorted[0], false);
      sorted[0] !in HeldSet(t) && forall id :: id in held ==> id in HeldSet(t)
  {
    assert sorted[0] !in sorted[1..];
  }

  lemma CollectiveReportsTruly(s: State, strategy: Strategy)
    requires Valid(s) && strategy != PriorityEnforce && strategy != Serialize
    ensures ReportsTruly(s, strategy)
  {
    SortListsAll(s.order, Rank(s.taus));
    HeldSets(s.taus, "");
  }

  // What each strategy leaves held, and that what it reports is what it leaves: every TAU
  // reported as held is held and every released one is not.
  lemma StrategyHolds(s: State, strategy: Strategy)
    requires Valid(s)
    ensures var t := Resolving(s, strategy).0;
      && HeldSet(t.taus) == HeldAfter(strategy, s.taus, Sorted(s.order, Rank(s.taus)))
      && (t.failClosed <==> s.failClosed || strategy == FailClosedCollectif)
    ensures ReportsTruly(s, strategy)
  {
    var sorted := Sorted(s.order, Rank(s.taus));
    SortListsAll(s.order, Rank(s.taus));
    HeldSets(s.taus, if sorted == [] then "" else sorted[0]);
    if strategy == PriorityEnforce || strategy == Serialize { ReleaseReportsTruly(s, strategy); }
    else { CollectiveReportsTruly(s, strategy); }
  }

  // The one TAU let through has the least priority value.
  lemma WinnerIsFirst(s: State, strategy: Strategy)
    requires Valid(s) && s.order != [] && (strategy == PriorityEnforce || strategy == Serialize)
    ensures var r := Resolving(s, strategy).1;
      |r.released| == 1 && forall id :: id in s.taus ==> Rank(s.taus)(r.released[0]) <= Rank(s.taus)(id)
  {
    var sorted := Sorted(s.order, Rank(s.taus));
    SortListsAll(s.order, Rank(s.taus));
    forall id | id in s.taus ensures Rank(s.taus)(sorted[0]) <= Rank(s.taus)(id) {
      var k :| 0 <= k < |sorted| && sorted[k] == id;
    }
  }

  class CompositionHoldManager {
    var order: seq<string>
    var taus: Taus
    var holdActive: bool
    var failClosed: bool
    var unblockEnabled: bool
    var unblockOrder: seq<string>
    var unblockIndex: nat

    function Value(): State
      reads this
    {
      State(order, taus, holdActive, failClosed, unblockEnabled, unblockOrder, unblockIndex)
    }

    constructor ()
      ensures Valid(Value()) && Value() == State([], map[], false, false, false, [], 0)
    {
      order, taus, unblockOrder := [], map[], [];
      holdActive, failClosed, unblockEnabled, unblockIndex := false, false, false, 0;
    }

    // Registering again resets a TAU and keeps its place.
    method RegisterTau(id: string, priority: int)
      requires Valid(Value())
      modifies this`order, this`taus
      ensures Valid(Value())
      ensures taus == old(taus)[id := Tau(priority, false, false)]
      ensures order == if id in old(taus) then old(order) else old(order) + [id]
    {
      if id !in taus { order := order + [id]; }
      taus := taus[id := Tau(priority, false, false)];
    }

    method EnterHold(id: string, violated: bool) returns (entered: bool)
      requires Valid(Value())
      modifies this`taus
      ensures Valid(Value()) && entered == (id in old(taus))
      ensures taus == if entered then old(taus)[id := old(taus)[id].(held := true, violated := violated)] else old(taus)
    {
      entered := id in taus;
      if entered { taus := taus[id := taus[id].(held := true, violated := violated)]; }
    }

    // One pass over some TAUs that sets their held flags; nothing else about them changes.
    method SetAll(ids: seq<string>, toViolated: bool)
      requires Valid(Value()) && (forall id :: id in ids <==> id in taus)
      modifies this`taus
      ensures Valid(Value())
      ensures taus == if toViolated then Restored(old(taus)) else AllHeld(old(taus))
    {
      for i := 0 to |ids|
        invariant taus.Keys == old(taus).Keys
        invariant forall id :: id in taus ==>
          taus[id] == if id in ids[..i] then old(taus)[id].(held := toViolated ==> old(taus)[id].violated)
                      else old(taus)[id]
      {
        taus := taus[ids[i] := taus[ids[i]].(held := toViolated ==> taus[ids[i]].violated)];
      }
      assert ids[..|ids|] == ids;
    }

    method EnterFailClosed()
      requires Valid(Value())
      modifies this
      ensures Valid(Value()) && Value() == AfterFailClosed(old(Value()))
    {
      failClosed := true;
      holdActive := true;
      SetAll(order, false);
    }

    method EnableProgressiveUnblock()
      requires Valid(Value())
      modifies this
      ensures Valid(Value()) && Value() == AfterEnable(old(Value()))
    {
      SortListsAll(order, Rank(taus));
      unblockEnabled := true;
      unblockOrder := Sorted(order, Rank(taus));
      unblockIndex := 0;
    }

    method ProgressiveUnblockNext(verified: bool) returns (released: Option<string>)
      requires Valid(Value())
      modifies this
      ensures Valid(Value()) && Value() == AfterNext(old(Value()), verified)
      ensures released.Some? <==> old(Value()) != Value()
      ensures released.Some? ==> old(unblockIndex) < |unblockOrder| && released == Some(unblockOrder[old(unblockIndex)])
    {
      if !unblockEnabled || unblockIndex >= |unblockOrder| || !verified { return None; }
      var id := unblockOrder[unblockIndex];
      taus := SetHeld(taus, id, false);
      unblockIndex := unblockIndex + 1;
      if unblockIndex == |unblockOrder| {
        failClosed := false;
        holdActive := false;
      }
      released := Some(id);
    }

    // resolve_composition_hold: a strategy that does not apply to the conflict changes
    // nothing.
    method Resolve(strategy: Strategy, conflict: Conflict) returns (r: Resolution)
      requires Valid(Value())
      modifies this
      ensures (Value(), r) == if Applies(strategy, conflict) then Resolving(old(Value()), strategy)
                              else (old(Value()), Resolution([], [], [], false))
    {
      if !Applies(strategy, conflict) { return Resolution([], [], [], false); }
      var sorted := Sorted(order, Rank(taus));
      SortListsAll(order, Rank(taus));
      match strategy {
        case PriorityEnforce => r := ReleaseFirst(sorted, false);
        case Serialize => r := ReleaseFirst(sorted, true);
        case ParetoRestore =>
          SetAll(sorted, true);
          var held := Filtered(sorted, taus);
          holdActive := |held| > 0;
          r := Resolution(held, Unheld(sorted, taus), [], |held| > 0);
        case Escalate =>
          SetAll(sorted, false);
          holdActive := true;
          r := Resolution(sorted, [], [], true);
        case FailClosedCollectif =>
          SetAll(sorted, false);
          holdActive := true;
          failClosed := true;
          r := Resolution(sorted, [], [], true);
      }
    }

    // The first TAU passes; the others wait if they are held, or are vetoed.
    method ReleaseFirst(sorted: seq<string>, queue: bool) returns (r: Resolution)
      requires Valid(Value()) && sorted == Sorted(order, Rank(taus))
      modifies this`taus, this`holdActive
      ensures (Value(), r) == Resolving(old(Value()), if queue then Serialize else PriorityEnforce)
    {
      SortListsAll(order, Rank(taus));
      if sorted == [] { return Resolution([], [], [], false); }
      var held := if queue then Filtered(sorted[1..], taus) else [];
      taus := SetHeld(taus, sorted[0], false);
      holdActive := |held| > 0;
      r := Resolution(held, [sorted[0]], if queue then [] else sorted[1..], |held| > 0);
    }
  }
}
