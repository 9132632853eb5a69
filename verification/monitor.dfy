// The R4 monitor, its control transitions, and its reconstruction from the ledger after a
// restart (r4/tenir_v4_test/controller.py).
module Monitor {
  import opened Wrappers
  import opened MembranePolicy
  import opened Trajectory
  import HashChain

  datatype Kind = ShadowToEnforce | EnforceToShadow

  // A proof of control. Its signature and validity period are checked elsewhere.
  datatype Proof = Proof(operator: string, action: Kind, nonce: string)

  // The local action word of an observation.
  datatype Deed = LetPass | PassWithAlert | PassWithIntendedBlock | Stop | StopOnAlert

  // What an observation entry records beside mode and event: the local action, the
  // trajectory, and the ruling of the shared engine.
  datatype Verdict = Verdict(deed: Deed, trajectory: TrajectoryState, ruling: Membrane)

  // A ledger payload; the optional parts may be absent in entries written by others.
  datatype Payload =
    | Observation(mode: Option<Mode>, event: Option<Event>, verdict: Option<Verdict>)
    | ControlTransition(transition: Option<Kind>, toMode: Option<Mode>, nonce: Option<string>)
    | Denied(requested: Kind, proof: Proof)
    | OtherType
    | Untyped

  datatype State = State(mode: Mode, windows: Windows, nonces: set<string>)

  function Fresh(): State { State(ShadowPassive, Windows([], []), {}) }

  function Target(k: Kind): Mode { if k == ShadowToEnforce then Enforce else ShadowPassive }

  function Fed(p: Bundle, s: State, e: Event): State
    requires BundleValid(p) && EventValid(e)
  {
    DenominatorIsPositive(e, p.epsilon);
    s.(windows := Advance(s.windows, p.window, Stability(e, p.epsilon)))
  }

  function DeedFor(mode: Mode, alert: bool, block: bool): Deed {
    match mode
    case ShadowOff => LetPass
    case ShadowPassive => if block then PassWithIntendedBlock else if alert then PassWithAlert else LetPass
    case ShadowCritical => if block then Stop else if alert then PassWithAlert else LetPass
    case Enforce => if block then Stop else if alert then StopOnAlert else LetPass
  }

  // What the entry of an observed event says.
  function VerdictOn(p: Bundle, s: State, e: Event): Verdict
    requires BundleValid(p) && EventValid(e)
  {
    DenominatorIsPositive(e, p.epsilon);
    var reading := ReadingFrom(s.windows, p.window, Stability(e, p.epsilon));
    var (alert, block) := (Alert(p, reading, e.optionSpace), Block(p, reading, e.optionSpace));
    Verdict(DeedFor(s.mode, alert, block),
            TrajectoryState(reading, Low(e.optionSpace, p.optionAlert), alert, block),
            EngineRuling(p, reading, e.optionSpace, s.mode).decision)
  }

  predicate Stops(d: Deed) { d == Stop || d == StopOnAlert }

  // The two judgments in one entry: the local action stops the event and the shared engine
  // blocks it together, except exactly for an intended block in SHADOW_CRITICAL and for an
  // alert alone in ENFORCE, which only the local action stops.
  lemma JudgmentsAgreeExactly(p: Bundle, s: State, e: Event)
    requires BundleValid(p) && EventValid(e)
    ensures var v := VerdictOn(p, s, e);
      (Stops(v.deed) <==> v.ruling == Blocked)
      <==> !(s.mode == ShadowCritical && v.trajectory.block)
           && !(s.mode == Enforce && v.trajectory.alert && !v.trajectory.block)
  {}

  // ---------------------------------------------------------------- replay

  // One entry of the replay loop; None when it raises.
  function Replayed(p: Bundle, s: State, entry: Payload): Option<State>
    requires BundleValid(p)
  {
    match entry
    case Observation(mode, event, _) =>
      if event.None? || !EventValid(event.value) then None
      else Some(Fed(p, s, event.value).(mode := if mode.Some? then mode.value else s.mode))
    case ControlTransition(transition, toMode, nonce) =>
      if toMode.None? && transition.None? then None
      else Some(s.(mode := if toMode.Some? then toMode.value else Target(transition.value),
                   nonces := if nonce.Some? && !Blank(nonce.value) then s.nonces + {nonce.value} else s.nonces))
    case Denied(_, _) => Some(s)
    case OtherType => Some(s)
    case Untyped => None
  }

  function Replay(p: Bundle, log: seq<Payload>): Option<State>
    requires BundleValid(p)
  {
    if log == [] then Some(Fresh())
    else match Replay(p, log[..|log| - 1])
      case None => None
      case Some(s) => Replayed(p, s, log[|log| - 1])
  }

  // ---------------------------------------------------------------- the running monitor

  // A running monitor beside its ledger.
  datatype Live = Live(state: State, log: seq<Payload>)

  // `verified` is the registry's verdict on the proof, which is never given for a blank
  // nonce.
  datatype Action =
    | Observe(event: Event)
    | Control(requested: Kind, proof: Proof, verified: bool)
    | Restart

  predicate Authorized(s: State, requested: Kind, proof: Proof, verified: bool) {
    proof.action == requested && proof.nonce !in s.nonces && verified && !Blank(proof.nonce)
  }

  function AfterObserve(p: Bundle, l: Live, e: Event): Live
    requires BundleValid(p)
  {
    if !EventValid(e) then l
    else
      var s := Fed(p, l.state, e);
      if !EngineValid(p) then l.(state := s)
      else Live(s, l.log + [Observation(Some(s.mode), Some(e), Some(VerdictOn(p, l.state, e)))])
  }

  function AfterControl(l: Live, requested: Kind, proof: Proof, verified: bool): Live {
    if Authorized(l.state, requested, proof, verified) then
      Live(l.state.(mode := Target(requested), nonces := l.state.nonces + {proof.nonce}),
           l.log + [ControlTransition(Some(requested), Some(Target(requested)), Some(proof.nonce))])
    else l.(log := l.log + [Denied(requested, proof)])
  }

  // A restart that cannot replay its ledger leaves no monitor; the old one is kept here.
  function Apply(p: Bundle, l: Live, a: Action): Live
    requires BundleValid(p)
  {
    match a
    case Observe(e) => AfterObserve(p, l, e)
    case Control(requested, proof, verified) => AfterControl(l, requested, proof, verified)
    case Restart => if Replay(p, l.log).Some? then l.(state := Replay(p, l.log).value) else l
  }

  function Run(p: Bundle, actions: seq<Action>): Live
    requires BundleValid(p)
  {
    if actions == [] then Live(Fresh(), [])
    else Apply(p, Run(p, actions[..|actions| - 1]), actions[|actions| - 1])
  }

  // ---------------------------------------------------------------- live equals rebuilt

  lemma ReplayExtends(p: Bundle, log: seq<Payload>, entry: Payload)
    requires BundleValid(p)
    ensures Replay(p, log + [entry]) == if Replay(p, log).None? then None else Replayed(p, Replay(p, log).value, entry)
  {
    assert (log + [entry])[..|log|] == log;
  }

  // The monitor has taken in an event that its ledger does not hold.
  predicate Unrecorded(p: Bundle, actions: seq<Action>) {
    actions != [] && !EngineValid(p) &&
    match actions[|actions| - 1]
    case Observe(e) => EventValid(e) || Unrecorded(p, actions[..|actions| - 1])
    case Control(_, _, _) => Unrecorded(p, actions[..|actions| - 1])
    case Restart => false
  }

  lemma ObserveMatches(p: Bundle, l: Live, e: Event)
    requires BundleValid(p) && Replay(p, l.log) == Some(l.state)
    requires EngineValid(p) || !EventValid(e)
    ensures var m := AfterObserve(p, l, e); Replay(p, m.log) == Some(m.state)
  {
    if EventValid(e) {
      ReplayExtends(p, l.log, Observation(Some(l.state.mode), Some(e), Some(VerdictOn(p, l.state, e))));
    }
  }

  // What one control attempt leaves in the ledger.
  function ControlEntry(s: State, requested: Kind, proof: Proof, verified: bool): Payload {
    if Authorized(s, requested, proof, verified)
    then ControlTransition(Some(requested), Some(Target(requested)), Some(proof.nonce))
    else Denied(requested, proof)
  }

  lemma ControlMatches(p: Bundle, l: Live, s: State, requested: Kind, proof: Proof, verified: bool)
    requires BundleValid(p) && Replay(p, l.log) == Some(l.state.(windows := s.windows))
    ensures var m := AfterControl(l, requested, proof, verified);
      Replay(p, m.log) == Some(m.state.(windows := s.windows))
  {
    ReplayExtends(p, l.log, ControlEntry(l.state, requested, proof, verified));
  }

  lemma ApplyMatches(p: Bundle, l: Live, a: Action)
    requires BundleValid(p) && Replay(p, l.log) == Some(l.state)
    requires a.Observe? ==> EngineValid(p) || !EventValid(a.event)
    ensures Replay(p, Apply(p, l, a).log) == Some(Apply(p, l, a).state)
  {
    match a
    case Observe(e) => ObserveMatches(p, l, e);
    case Control(requested, proof, verified) => ControlMatches(p, l, l.state, requested, proof, verified);
    case Restart =>
  }

  // Without an accepted engine nothing observed reaches the ledger: its replay has empty
  // windows, and the same mode and nonces as the running monitor.
  lemma {:induction false} UnrecordedReplay(p: Bundle, actions: seq<Action>)
    requires BundleValid(p) && !EngineValid(p)
    ensures var l := Run(p, actions);
      && Replay(p, l.log) == Some(l.state.(windows := Windows([], [])))
      && (l.state.windows.s != [] <==> Unrecorded(p, actions))
      && (l.state.windows.s == [] ==> l.state.windows.ds == [])
  {
    if actions != [] {
      var (init, a) := (actions[..|actions| - 1], actions[|actions| - 1]);
      UnrecordedReplay(p, init);
      if a.Control? { ControlMatches(p, Run(p, init), Fresh(), a.requested, a.proof, a.verified); }
    }
  }

  // After any run of observations, authorized and denied transitions and restarts, a
  // monitor rebuilt from the ledger has the same mode, windows and nonces as the running
  // one, except exactly when the policy is one the shared engine refuses and a valid event
  // was observed since the last restart: observe updates the tracker before it raises.
  lemma {:induction false} RebuiltEqualsLive(p: Bundle, actions: seq<Action>)
    requires BundleValid(p)
    ensures Replay(p, Run(p, actions).log) == Some(Run(p, actions).state) <==> !Unrecorded(p, actions)
  {
    if !EngineValid(p) {
      UnrecordedReplay(p, actions);
    } else if actions != [] {
      RebuiltEqualsLive(p, actions[..|actions| - 1]);
      ApplyMatches(p, Run(p, actions[..|actions| - 1]), actions[|actions| - 1]);
    }
  }

  // A concrete failing policy: a positive derivative floor passes the bundle's validation.
  lemma PositiveFloorDiverges()
    ensures var p := Bundle("v", 1.0, 0.90, 0.75, 0.05, -0.03, 5, 8, 0.35, 0.20, 0.42);
      var actions := [Observe(Event(0.0, 0.0, 1.0, None))];
      BundleValid(p) && Replay(p, Run(p, actions).log) != Some(Run(p, actions).state)
  {
    var p := Bundle("v", 1.0, 0.90, 0.75, 0.05, -0.03, 5, 8, 0.35, 0.20, 0.42);
    RebuiltEqualsLive(p, [Observe(Event(0.0, 0.0, 1.0, None))]);
  }

  // ---------------------------------------------------------------- nonces

  predicate Uses(entry: Payload, nonce: string) {
    entry.ControlTransition? && entry.nonce == Some(nonce)
  }

  ghost predicate NoncesDistinct(log: seq<Payload>) {
    forall i, j, n :: 0 <= i < j < |log| && Uses(log[i], n) ==> !Uses(log[j], n)
  }

  ghost predicate NoncesKnown(l: Live) {
    forall i, n :: 0 <= i < |l.log| && Uses(l.log[i], n) ==> n in l.state.nonces && !Blank(n)
  }

  lemma {:induction false} ReplayKnowsNonces(p: Bundle, log: seq<Payload>)
    requires BundleValid(p) && Replay(p, log).Some?
    ensures forall i, n :: 0 <= i < |log| && Uses(log[i], n) && !Blank(n) ==> n in Replay(p, log).value.nonces
  {
    if log != [] {
      var init := log[..|log| - 1];
      ReplayKnowsNonces(p, init);
      assert forall i :: 0 <= i < |init| ==> log[i] == init[i];
    }
  }

  // Each nonce appears in at most one recorded transition, whatever the policy and however
  // often the monitor restarts.
  lemma {:induction false} NonceUsedOnce(p: Bundle, actions: seq<Action>)
    requires BundleValid(p)
    ensures NoncesDistinct(Run(p, actions).log) && NoncesKnown(Run(p, actions))
  {
    if actions != [] {
      var (init, a) := (actions[..|actions| - 1], actions[|actions| - 1]);
      NonceUsedOnce(p, init);
      if a.Restart? && Replay(p, Run(p, init).log).Some? { ReplayKnowsNonces(p, Run(p, init).log); }
    }
  }

  // ---------------------------------------------------------------- the class

  function Payloads(lines: seq<HashChain.Entry<Payload, ()>>): (log: seq<Payload>)
    ensures |log| == |lines|
  {
    seq(|lines|, i requires 0 <= i < |lines| => lines[i].payload)
  }

  class TenirMonitor {
    const policy: Bundle
    const tracker: TrajectoryTracker
    const ledger: HashChain.FileLedger<Payload>
    var mode: Mode
    var usedNonces: set<string>

    ghost predicate Valid()
      reads this, ledger.file
    {
      BundleValid(policy) && tracker.policy == policy && HashChain.Verified(ledger.file.lines)
    }

    function Value(): Live
      reads this, tracker, ledger.file
    {
      Live(State(mode, tracker.Value(), usedNonces), Payloads(ledger.file.lines))
    }

    constructor (policy: Bundle, file: HashChain.File<Payload>)
      requires BundleValid(policy) && HashChain.Verified(file.lines)
      ensures Valid() && this.policy == policy && ledger.file == file && fresh(tracker) && fresh(ledger)
      ensures Value() == Live(Fresh(), Payloads(file.lines))
    {
      this.policy := policy;
      tracker := new TrajectoryTracker(policy);
      ledger := new HashChain.FileLedger(file);
      mode, usedNonces := ShadowPassive, {};
    }

    // _replay_state_from_ledger, on a monitor just opened.
    method ReplayLedger() returns (ok: bool)
      requires Valid() && Value().state == Fresh()
      modifies this, tracker
      ensures Valid() && Value().log == old(Value().log)
      ensures ok == Replay(policy, Value().log).Some?
      ensures ok ==> Value().state == Replay(policy, Value().log).value
    {
      var recovered := ShadowPassive;
      var lines := ledger.file.lines;
      ghost var log := Payloads(lines);
      for i := 0 to |lines|
        invariant Replay(policy, log[..i]) == Some(State(recovered, tracker.Value(), usedNonces))
      {
        assert log[..i + 1][..i] == log[..i];
        ghost var before := State(recovered, tracker.Value(), usedNonces);
        var entry := lines[i].payload;
        assert Replay(policy, log[..i + 1]) == Replayed(policy, before, entry);
        match entry {
          case Observation(m, e, _) =>
            if m.Some? { recovered := m.value; }
            if e.None? { ReplayStops(policy, log, i + 1); return false; }
            var state := tracker.Update(e.value);
            if state.None? { ReplayStops(policy, log, i + 1); return false; }
            assert Replayed(policy, before, entry) == Some(State(recovered, tracker.Value(), usedNonces));
          case ControlTransition(transition, toMode, nonce) =>
            if nonce.Some? && !Blank(nonce.value) { usedNonces := usedNonces + {nonce.value}; }
            if toMode.Some? { recovered := toMode.value; }
            else if transition.Some? { recovered := Target(transition.value); }
            else { ReplayStops(policy, log, i + 1); return false; }
          case Denied(_, _) =>
          case OtherType =>
          case Untyped => ReplayStops(policy, log, i + 1); return false;
        }
      }
      assert log[..|lines|] == log;
      mode := recovered;
      ok := true;
    }

    // None when observe raises.
    method Observe(e: Event) returns (r: Option<Verdict>)
      requires Valid()
      modifies this, tracker, ledger, ledger.file
      ensures Valid() && Value() == AfterObserve(policy, old(Value()), e)
      ensures r.Some? <==> EventValid(e) && EngineValid(policy)
      ensures r.Some? ==> r.value == VerdictOn(policy, old(Value()).state, e)
    {
      var state := tracker.Update(e);
      if state.None? { return None; }
      var t := state.value;
      var deed := DeedFor(mode, t.alert, t.block);
      if !EngineValid(policy) { return None; }
      var ruling := EvaluateMembrane(policy, t.reading, e.optionSpace, mode);
      var verdict := Verdict(deed, t, ruling.decision);
      Record(Observation(Some(mode), Some(e), Some(verdict)));
      r := Some(verdict);
    }

    // close_the_glass and reopen_to_shadow, with the authorization they share.
    method Transition(requested: Kind, proof: Proof, verified: bool) returns (done: bool)
      requires Valid()
      modifies this, ledger, ledger.file
      ensures Valid() && Value() == AfterControl(old(Value()), requested, proof, verified)
      ensures done == Authorized(old(Value()).state, requested, proof, verified)
    {
      if proof.action != requested || proof.nonce in usedNonces || !verified || Blank(proof.nonce) {
        Record(Denied(requested, proof));
        return false;
      }
      usedNonces := usedNonces + {proof.nonce};
      mode := Target(requested);
      Record(ControlTransition(Some(requested), Some(mode), Some(proof.nonce)));
      done := true;
    }

    method Record(payload: Payload)
      requires Valid()
      modifies ledger, ledger.file
      ensures Valid() && Value() == old(Value()).(log := old(Value().log) + [payload])
    {
      var _ := ledger.Append(payload);
      assert Payloads(ledger.file.lines) == old(Payloads(ledger.file.lines)) + [payload];
    }
  }

  // A monitor opened on an existing ledger, as after a restart; None when opening raises.
  method OpenMonitor(policy: Bundle, file: HashChain.File<Payload>) returns (r: Option<TenirMonitor>)
    ensures r.Some? <==>
      BundleValid(policy) && HashChain.Verified(file.lines) && Replay(policy, Payloads(file.lines)).Some?
    ensures r.Some? ==>
      && fresh(r.value) && r.value.Valid() && r.value.policy == policy && r.value.ledger.file == file
      && r.value.Value() == Live(Replay(policy, Payloads(file.lines)).value, Payloads(file.lines))
  {
    if !BundleValid(policy) { return None; }
    var last := HashChain.Walk(file.lines);
    if last.None? { return None; }
    var monitor := new TenirMonitor(policy, file);
    var ok := monitor.ReplayLedger();
    if !ok { return None; }
    r := Some(monitor);
  }

  lemma {:induction false} ReplayStops(p: Bundle, log: seq<Payload>, n: nat)
    requires BundleValid(p) && n <= |log| && Replay(p, log[..n]).None?
    ensures Replay(p, log).None?
    decreases |log|
  {
    if n == |log| {
      assert log[..n] == log;
    } else {
      assert log[..|log| - 1][..n] == log[..n];
      ReplayStops(p, log[..|log| - 1], n);
    }
  }
}
