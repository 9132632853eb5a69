// Event derivatives from three kinds of history: the tracker's two bounded windows
// (r4/tenir_v4_test/trajectory.py), the unbounded history of the intake kernel
// (r5_wired/core/trajectory.py) and the SDK client's popped list (tenir_governance/sdk.py).
module Trajectory {
  import opened Wrappers
  import opened MembranePolicy

  datatype Event = Event(pressure: real, velocity: real, capacity: real, optionSpace: Option<real>)

  // EventSample.validate
  predicate EventValid(e: Event) {
    && e.pressure >= 0.0 && e.velocity >= 0.0 && e.capacity >= 0.0
    && (e.optionSpace.Some? ==> Unit(e.optionSpace.value))
  }

  function Denominator(e: Event, epsilon: real): real { e.pressure * e.velocity + epsilon }

  lemma DenominatorIsPositive(e: Event, epsilon: real)
    requires EventValid(e) && epsilon > 0.0
    ensures Denominator(e, epsilon) > 0.0
  {
    assert e.pressure * e.velocity >= 0.0;
  }

  function Stability(e: Event, epsilon: real): real
    requires Denominator(e, epsilon) != 0.0
  {
    e.capacity / Denominator(e, epsilon)
  }

  // ---------------------------------------------------------------- specification

  // The difference `back` events before the end; 0 when there is no such pair.
  function Slope(history: seq<real>, back: nat): real {
    if |history| >= back + 2 then history[|history| - 1 - back] - history[|history| - 2 - back] else 0.0
  }

  // The reading after the last event of a whole history.
  function ReadingOf(history: seq<real>): Reading
    requires history != []
  {
    var s := history[|history| - 1];
    var ds := Slope(history, 0);
    Reading(s, ds, if |history| >= 3 then ds - Slope(history, 1) else 0.0, Horizon(s, ds))
  }

  // ---------------------------------------------------------------- unbounded history

  class TrajectoryKernel {
    const epsilon: real
    var history: seq<real>
    var dsHistory: seq<real>

    // The second list holds every first difference.
    ghost predicate Valid()
      reads this
    {
      && |dsHistory| == (if history == [] then 0 else |history| - 1)
      && forall i :: 0 <= i < |dsHistory| ==> dsHistory[i] == history[i + 1] - history[i]
    }

    constructor (epsilon: real)
      ensures Valid() && history == [] && this.epsilon == epsilon
    {
      this.epsilon := epsilon;
      history, dsHistory := [], [];
    }

    // None when the division raises, before anything is appended.
    method Compute(e: Event) returns (r: Option<Reading>)
      requires Valid()
      modifies this
      ensures Valid()
      ensures Denominator(e, epsilon) == 0.0 ==> r == None && history == old(history)
      ensures Denominator(e, epsilon) != 0.0 ==>
        history == old(history) + [Stability(e, epsilon)] && r == Some(ReadingOf(history))
    {
      if Denominator(e, epsilon) == 0.0 { return None; }
      var s := Stability(e, epsilon);
      history := history + [s];
      var ds := 0.0;
      if |history| >= 2 {
        ds := history[|history| - 1] - history[|history| - 2];
        dsHistory := dsHistory + [ds];
      }
      var d2s := 0.0;
      if |dsHistory| >= 2 { d2s := dsHistory[|dsHistory| - 1] - dsHistory[|dsHistory| - 2]; }
      r := Some(Reading(s, ds, d2s, Horizon(s, ds)));
    }
  }

  // ---------------------------------------------------------------- bounded windows

  // The last `n` elements, or all of them.
  function Suffix<T>(s: seq<T>, n: nat): seq<T> {
    if |s| <= n then s else seq(n, i requires 0 <= i < n => s[|s| - n + i])
  }

  // deque(maxlen=n).append
  function Pushed<T>(window: seq<T>, n: nat, x: T): seq<T> {
    Suffix(window + [x], n)
  }

  lemma PushedSuffix<T>(s: seq<T>, n: nat, x: T)
    ensures Pushed(Suffix(s, n), n, x) == Suffix(s + [x], n)
  {}

  function Differences(history: seq<real>): seq<real> {
    if |history| < 2 then []
    else seq(|history| - 1, i requires 0 <= i < |history| - 1 => history[i + 1] - history[i])
  }

  lemma DifferencesExtend(history: seq<real>, s: real)
    requires history != []
    ensures Differences(history + [s]) == Differences(history) + [Slope(history + [s], 0)]
  {
    var (h, d) := (history + [s], Differences(history) + [Slope(history + [s], 0)]);
    assert |Differences(h)| == |d| == |history|;
    forall i | 0 <= i < |d| ensures Differences(h)[i] == d[i] {
      if i == |history| - 1 { assert d[i] == Slope(h, 0); }
    }
  }

  // What a tracker remembers.
  datatype Windows = Windows(s: seq<real>, ds: seq<real>)

  function WindowsOf(history: seq<real>, n: nat): Windows {
    Windows(Suffix(history, n), Suffix(Differences(history), n))
  }

  function Advance(w: Windows, n: nat, s: real): Windows {
    var sw := Pushed(w.s, n, s);
    Windows(sw, if |sw| >= 2 then Pushed(w.ds, n, Slope(sw, 0)) else w.ds)
  }

  function ReadingFrom(w: Windows, n: nat, s: real): Reading
    requires n >= 1
  {
    var t := Advance(w, n, s);
    var ds := Slope(t.s, 0);
    Reading(s, ds, Slope(t.ds, 0), Horizon(s, ds))
  }

  lemma SuffixKeepsSlope(s: seq<real>, n: nat)
    requires n >= 2
    ensures Slope(Suffix(s, n), 0) == Slope(s, 0)
  {}

  lemma SlopeOfDifferences(history: seq<real>)
    ensures Slope(Differences(history), 0) == if |history| >= 3 then Slope(history, 0) - Slope(history, 1) else 0.0
  {}

  lemma WindowsAdvance(history: seq<real>, n: nat, s: real)
    requires n >= 2
    ensures Advance(WindowsOf(history, n), n, s) == WindowsOf(history + [s], n)
  {
    var h := history + [s];
    PushedSuffix(history, n, s);
    SuffixKeepsSlope(h, n);
    if history != [] {
      DifferencesExtend(history, s);
      PushedSuffix(Differences(history), n, Slope(h, 0));
    }
  }

  // A tracker of any window of at least 2 remembers the tail of the whole history and
  // reads off it what the whole history gives.
  lemma WindowsFollowHistory(history: seq<real>, n: nat, s: real)
    requires n >= 2
    ensures Advance(WindowsOf(history, n), n, s) == WindowsOf(history + [s], n)
    ensures ReadingFrom(WindowsOf(history, n), n, s) == ReadingOf(history + [s])
  {
    var h := history + [s];
    WindowsAdvance(history, n, s);
    SuffixKeepsSlope(h, n);
    SuffixKeepsSlope(Differences(h), n);
    SlopeOfDifferences(h);
  }

  // What a tracker remembers before, between and after any sequence of stabilities.
  ghost predicate AdvancesAt(memory: seq<Windows>, history: seq<real>, n: nat, i: nat)
    requires i < |history| && |memory| == |history| + 1
  {
    memory[i + 1] == Advance(memory[i], n, history[i])
  }

  ghost predicate TrackerRun(memory: seq<Windows>, history: seq<real>, n: nat) {
    && |memory| == |history| + 1 && memory[0] == Windows([], [])
    && forall i :: 0 <= i < |history| ==> AdvancesAt(memory, history, n, i)
  }

  lemma AdvanceFollows(w: Windows, history: seq<real>, n: nat, s: real, longer: seq<real>)
    requires n >= 2 && w == WindowsOf(history, n) && longer == history + [s]
    ensures Advance(w, n, s) == WindowsOf(longer, n)
    ensures ReadingFrom(w, n, s) == ReadingOf(longer)
  {
    WindowsFollowHistory(history, n, s);
  }

  lemma OneMore(history: seq<real>, i: nat)
    requires i < |history|
    ensures history[..i + 1] == history[..i] + [history[i]]
  {}

  // From the first event on, it is always the tail of the whole history so far, and so
  // every reading is the one the whole history gives.
  lemma {:induction false} TrackerRemembersTail(memory: seq<Windows>, history: seq<real>, n: nat, i: nat)
    requires n >= 2 && TrackerRun(memory, history, n) && i <= |history|
    ensures memory[i] == WindowsOf(history[..i], n)
    decreases i
  {
    if i > 0 {
      TrackerRemembersTail(memory, history, n, i - 1);
      assert AdvancesAt(memory, history, n, i - 1);
      OneMore(history, i - 1);
      AdvanceFollows(memory[i - 1], history[..i - 1], n, history[i - 1], history[..i]);
    }
  }

  lemma TrackerReadsWholeHistory(memory: seq<Windows>, history: seq<real>, n: nat, i: nat)
    requires n >= 2 && TrackerRun(memory, history, n) && i < |history|
    ensures ReadingFrom(memory[i], n, history[i]) == ReadingOf(history[..i + 1])
  {
    TrackerRemembersTail(memory, history, n, i);
    OneMore(history, i);
    AdvanceFollows(memory[i], history[..i], n, history[i], history[..i + 1]);
  }

  lemma {:induction false} WindowOfOneHoldsLast(memory: seq<Windows>, history: seq<real>, i: nat)
    requires TrackerRun(memory, history, 1) && i <= |history|
    ensures memory[i] == Windows(if i == 0 then [] else [history[i - 1]], [])
  {
    if i > 0 {
      WindowOfOneHoldsLast(memory, history, i - 1);
      assert AdvancesAt(memory, history, 1, i - 1);
    }
  }

  // The bound of 2 is sharp: with a window of 1 every reading is that of a standstill, right
  // exactly where the whole history shows no movement. Policies ask for at least 3.
  lemma WindowOfOneIsBlind(memory: seq<Windows>, history: seq<real>, i: nat)
    requires TrackerRun(memory, history, 1) && i < |history|
    ensures ReadingFrom(memory[i], 1, history[i]) == Reading(history[i], 0.0, 0.0, None)
    ensures var whole := ReadingOf(history[..i + 1]);
      ReadingFrom(memory[i], 1, history[i]) == whole <==> whole.ds == 0.0 && whole.d2s == 0.0
  {
    WindowOfOneHoldsLast(memory, history, i);
  }

  datatype TrajectoryState = TrajectoryState(reading: Reading, optionSpaceLow: bool, alert: bool, block: bool)

  class TrajectoryTracker {
    const policy: Bundle
    var window: seq<real>
    var dsWindow: seq<real>

    constructor (policy: Bundle)
      requires BundleValid(policy)
      ensures this.policy == policy && Value() == Windows([], [])
    {
      this.policy := policy;
      window, dsWindow := [], [];
    }

    function Value(): Windows
      reads this
    {
      Windows(window, dsWindow)
    }

    // The two windows take in the next stability and its first derivative.
    method Slide(s: real) returns (ds: real, d2s: real)
      requires policy.window >= 2
      modifies this
      ensures Value() == Advance(old(Value()), policy.window, s)
      ensures ds == Slope(window, 0) && d2s == Slope(dsWindow, 0)
    {
      window := Pushed(window, policy.window, s);
      ds := 0.0;
      if |window| >= 2 {
        ds := window[|window| - 1] - window[|window| - 2];
        dsWindow := Pushed(dsWindow, policy.window, ds);
      }
      d2s := 0.0;
      if |dsWindow| >= 2 { d2s := dsWindow[|dsWindow| - 1] - dsWindow[|dsWindow| - 2]; }
    }

    // None when the event is refused; the windows are then untouched.
    method Update(e: Event) returns (r: Option<TrajectoryState>)
      requires BundleValid(policy)
      modifies this
      ensures !EventValid(e) ==> r == None && Value() == old(Value())
      ensures EventValid(e) ==>
        && Denominator(e, policy.epsilon) > 0.0
        && var s := Stability(e, policy.epsilon);
        && Value() == Advance(old(Value()), policy.window, s)
        && r.Some? && r.value.reading == ReadingFrom(old(Value()), policy.window, s)
        && r.value.alert == Alert(policy, r.value.reading, e.optionSpace)
        && r.value.block == Block(policy, r.value.reading, e.optionSpace)
        && r.value.optionSpaceLow == Low(e.optionSpace, policy.optionAlert)
    {
      if !EventValid(e) { return None; }
      DenominatorIsPositive(e, policy.epsilon);
      var s := Stability(e, policy.epsilon);
      var ds, d2s := Slide(s);
      var reading := Reading(s, ds, d2s, Horizon(s, ds));
      var low := Low(e.optionSpace, policy.optionAlert);
      var alert := s <= policy.sAlert || ds <= policy.dsAlert || d2s <= policy.d2sAlert
        || AtMost(reading.horizon, policy.reactionBudget) || low;
      var block := s <= policy.sBlock || AtMost(reading.horizon, HalfBudget(policy))
        || Low(e.optionSpace, policy.optionBlock);
      r := Some(TrajectoryState(reading, low, alert, block));
    }
  }

  // In every mode but SHADOW_OFF the tracker's flags are those of the shared engine built
  // from the same bundle; in SHADOW_OFF the engine reports neither.
  lemma TrackerAgreesWithEngine(b: Bundle, r: Reading, option: Option<real>, mode: Mode)
    ensures var ruling := EngineRuling(b, r, option, mode);
      ruling.alert == Alert(b, r, option) && ruling.block == Block(b, r, option)
      <==> mode != ShadowOff || (!Alert(b, r, option) && !Block(b, r, option))
  {}

  // ---------------------------------------------------------------- popped history

  class GovernanceClient {
    const epsilon: real
    const window: nat
    var stability: seq<real>
    ghost var seen: seq<real>

    // After a call the list is the tail of everything seen.
    ghost predicate Valid()
      reads this
    {
      window >= 2 && stability == Suffix(seen, window)
    }

    constructor (epsilon: real, window: nat)
      requires window >= 2
      ensures Valid() && seen == [] && this.epsilon == epsilon && this.window == window
    {
      this.epsilon, this.window := epsilon, window;
      stability, seen := [], [];
    }

    // The trajectory half of adjudicate.
    method Adjudicate(e: Event) returns (r: Option<Reading>)
      requires Valid()
      modifies this
      ensures Valid()
      ensures Denominator(e, epsilon) == 0.0 ==> r == None && seen == old(seen)
      ensures Denominator(e, epsilon) != 0.0 ==>
        seen == old(seen) + [Stability(e, epsilon)] && r == Some(ReadingOf(seen))
    {
      if Denominator(e, epsilon) == 0.0 { return None; }
      var s := Stability(e, epsilon);
      stability := stability + [s];
      seen := seen + [s];
      var n := |stability|;
      var ds, d2s := 0.0, 0.0;
      if n >= 2 { ds := stability[n - 1] - stability[n - 2]; }
      if n >= 3 {
        var previous := stability[n - 2] - stability[n - 3];
        d2s := ds - previous;
      }
      if n > window { stability := stability[1..]; }
      r := Some(Reading(s, ds, d2s, Horizon(s, ds)));
    }
  }
}
