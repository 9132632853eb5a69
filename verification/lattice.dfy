// The decision lattice that composes the two kernels
// (tenir_governance/composition/lattice.py).
module Lattice {
  import opened Wrappers

  datatype Decision = Pass | Flag | Hold | HardVeto

  // Budget utilization as measured: absent, a ratio, or the infinite value the
  // governor substitutes for an unreadable durable backend.
  datatype Utilization = Unmeasured | Ratio(value: real) | Unbounded

  // Everything `compose` looks at. A kernel that raised contributes `None`.
  datatype Evidence = Evidence(
    scoring: Option<Decision>,
    membrane: Option<Decision>,
    utilization: Utilization,
    budgetInScope: bool,
    threshold: real)

  function Severity(d: Decision): nat {
    match d
    case Pass => 0
    case Flag => 1
    case Hold => 2
    case HardVeto => 3
  }

  predicate NearLimit(e: Evidence) {
    match e.utilization
    case Unmeasured => false
    case Ratio(u) => u >= e.threshold
    case Unbounded => true
  }

  function Compose(e: Evidence): (d: Decision) {
    if e.scoring.None? && e.membrane.None? then Hold
    else if e.scoring.None? then
      if e.membrane.value == HardVeto then HardVeto else Hold
    else if e.membrane.None? then
      if e.scoring.value == HardVeto then HardVeto else Hold
    else
      var s, m := e.scoring.value, e.membrane.value;
      if s == HardVeto || m == HardVeto then HardVeto
      else if m == Hold then Hold
      else if s == Flag || m == Flag then
        if e.budgetInScope && e.utilization == Unmeasured then Hold
        else if NearLimit(e) then Hold
        else Flag
      else Pass
  }

  predicate Admits(d: Decision) { d == Pass || d == Flag }

  // A decision that keeps the operation alive (adjudicate's PASS, FLAG, HOLD).
  predicate Retains(d: Decision) { d != HardVeto }

  // The evidence on which an operation may be admitted: both kernels answered and
  // the composition is PASS or FLAG.
  predicate Admissible(e: Evidence) {
    e.scoring.Some? && e.membrane.Some? && Admits(Compose(e))
  }

  // Fail-closed: no answer from a kernel is never an admission.
  lemma AdmissionNeedsBothKernels(e: Evidence)
    ensures Admits(Compose(e)) ==> Admissible(e)
  {}

  // A FLAG turns into a HOLD on a budget that is near its limit, or in scope but unmeasured.
  predicate BudgetRaises(e: Evidence) {
    (e.budgetInScope && e.utilization == Unmeasured) || NearLimit(e)
  }

  // The composition never undercuts a kernel, with exactly one exception: a scoring
  // HOLD is invisible unless the membrane already blocks.
  lemma NeverBelowEitherKernel(e: Evidence)
    requires e.scoring.Some? && e.membrane.Some?
    ensures (Severity(Compose(e)) >= Severity(e.scoring.value)
             && Severity(Compose(e)) >= Severity(e.membrane.value))
            <==>
            !(e.scoring.value == Hold && Admits(e.membrane.value)
              && !(e.membrane.value == Flag && BudgetRaises(e)))
  {}

  function Worse(a: Decision, b: Decision): Decision { if Severity(a) < Severity(b) then b else a }

  // Apart from a scoring HOLD the composition is the more severe of the two answers, with a
  // FLAG raised by the budget; one answer alone counts only when it vetoes.
  lemma ComposeIsJoin(e: Evidence)
    requires e.scoring != Some(Hold)
    ensures Compose(e) ==
      if e.scoring.Some? && e.membrane.Some? then
        var worse := Worse(e.scoring.value, e.membrane.value);
        if worse == Flag && BudgetRaises(e) then Hold else worse
      else if e.scoring == Some(HardVeto) || e.membrane == Some(HardVeto) then HardVeto
      else Hold
  {}

  // Utilization order: a larger ratio is worse, and infinity is worst.
  predicate UtilizationNoBetter(a: Utilization, b: Utilization, inScope: bool) {
    match (a, b)
    case (_, Unbounded) => true
    case (Unmeasured, Ratio(_)) => !inScope
    case (Ratio(x), Ratio(y)) => x <= y
    case (Unmeasured, Unmeasured) => true
    case (Ratio(_), Unmeasured) => inScope
    case (Unbounded, Unmeasured) => inScope
    case (Unbounded, Ratio(_)) => false
  }

  // `b` is nowhere better than `a` and differs only in measurements.
  predicate EvidenceNoBetter(a: Evidence, b: Evidence) {
    && a.scoring.Some? && b.scoring.Some?
    && a.membrane.Some? && b.membrane.Some?
    && Severity(a.scoring.value) <= Severity(b.scoring.value)
    && Severity(a.membrane.value) <= Severity(b.membrane.value)
    && a.budgetInScope == b.budgetInScope && a.threshold == b.threshold
    && UtilizationNoBetter(a.utilization, b.utilization, a.budgetInScope)
  }

  // Worse evidence never composes to a milder decision, provided the scoring kernel
  // does not answer HOLD.
  lemma ComposeIsMonotone(a: Evidence, b: Evidence)
    requires EvidenceNoBetter(a, b)
    requires b.scoring.value != Hold
    ensures Severity(Compose(a)) <= Severity(Compose(b))
  {}
}
