// The scoring side: constraint geometry, the execution kernel in ENFORCE mode, and the
// adapter that feeds it (tenir_kernel/geometry.py, tenir_kernel/kernel.py,
// tenir_governance/composition/governor.py, ScoringKernelAdapter), over the reals.
module Scoring {
  import opened Wrappers
  import opened Lattice

  datatype Axis =
    | Pressure | Velocity | Capacity | OptionSpace | CooperativeControl | TrajectoryRisk
    | Irreversibility | EvidenceQuality | ManipulationRisk | Drift | Authority | ContextFit

  type Point = map<Axis, real>

  datatype Severity = Hard | Soft

  // The half-space normal . point <= bound; the normal lists axes with their coefficients.
  datatype Facet = Facet(id: string, normal: seq<(Axis, real)>, bound: real, severity: Severity)

  datatype Report = Report(hard: seq<string>, soft: seq<string>)

  const GEOMETRY_ID := "tenir-2.0-reference"

  const REFERENCE: seq<Facet> := [
    Facet("authority-floor", [(Authority, -1.0)], -0.50, Hard),
    Facet("context-fit-floor", [(ContextFit, -1.0)], -0.50, Hard),
    Facet("irreversibility-authority-boundary", [(Irreversibility, 1.0), (Authority, -1.0)], 0.25, Hard),
    Facet("evidence-quality-floor", [(EvidenceQuality, -1.0)], -0.40, Soft),
    Facet("load-capacity-envelope", [(Pressure, 1.0), (Velocity, 1.0), (Capacity, -1.0)], 0.75, Soft)]

  // ---------------------------------------------------------------- geometry

  predicate Unit(x: real) { 0.0 <= x <= 1.0 }

  predicate ValidPoint(point: Point) { forall a :: a in point ==> Unit(point[a]) }

  predicate Complete(n: seq<(Axis, real)>, point: Point) {
    forall i :: 0 <= i < |n| ==> n[i].0 in point
  }

  function Dot(n: seq<(Axis, real)>, point: Point): real
    requires Complete(n, point)
  {
    if n == [] then 0.0 else Dot(n[..|n| - 1], point) + n[|n| - 1].1 * point[n[|n| - 1].0]
  }

  function NormSquared(n: seq<(Axis, real)>): (r: real)
    ensures r >= 0.0
  {
    if n == [] then 0.0 else NormSquared(n[..|n| - 1]) + n[|n| - 1].1 * n[|n| - 1].1
  }

  // The signed margin (bound - value) / norm lies below -1e-9, without the square root.
  predicate Beyond(excess: real, normSquared: real) {
    excess > 0.0 && excess * excess > 0.000000000000000001 * normSquared
  }

  predicate Outside(f: Facet, point: Point)
    requires Complete(f.normal, point)
  {
    Beyond(Dot(f.normal, point) - f.bound, NormSquared(f.normal))
  }

  // A facet whose axes are not all given is a hard violation whatever its severity.
  predicate ViolatesHard(f: Facet, point: Point) {
    !Complete(f.normal, point) || (f.severity == Hard && Outside(f, point))
  }

  predicate ViolatesSoft(f: Facet, point: Point) {
    Complete(f.normal, point) && f.severity == Soft && Outside(f, point)
  }

  function Violations(facets: seq<Facet>, point: Point): Report {
    if facets == [] then Report([], [])
    else
      var (r, f) := (Violations(facets[..|facets| - 1], point), facets[|facets| - 1]);
      Report(r.hard + (if ViolatesHard(f, point) then [f.id] else []),
             r.soft + (if ViolatesSoft(f, point) then [f.id] else []))
  }

  method WeighFacet(f: Facet, point: Point) returns (value: real, normSquared: real)
    requires Complete(f.normal, point)
    ensures value == Dot(f.normal, point) && normSquared == NormSquared(f.normal)
  {
    value, normSquared := 0.0, 0.0;
    for i := 0 to |f.normal|
      invariant value == Dot(f.normal[..i], point) && normSquared == NormSquared(f.normal[..i])
    {
      assert f.normal[..i + 1][..i] == f.normal[..i];
      value := value + f.normal[i].1 * point[f.normal[i].0];
      normSquared := normSquared + f.normal[i].1 * f.normal[i].1;
    }
    assert f.normal[..|f.normal|] == f.normal;
  }

  // The square roots the source takes of the squared norms, given with the policy.
  predicate Norms(facets: seq<Facet>, norms: seq<real>) {
    && |norms| == |facets|
    && forall i :: 0 <= i < |facets| ==> norms[i] > 0.0 && norms[i] * norms[i] == NormSquared(facets[i].normal)
  }

  function Margin(f: Facet, norm: real, point: Point): real
    requires Complete(f.normal, point) && norm > 0.0
  {
    (f.bound - Dot(f.normal, point)) / norm
  }

  const TOLERANCE := 0.000000001

  lemma Quotient(x: real, n: real)
    requires n > 0.0
    ensures (x / n) * n == x
  {}

  lemma MarginSign(m: real, x: real, n: real)
    requires n > 0.0 && m * n == -x
    ensures m < -TOLERANCE <==> x > TOLERANCE * n
  {
    assert (m + TOLERANCE) * n == TOLERANCE * n - x;
  }

  lemma SquareOrder(x: real, y: real)
    requires y > 0.0
    ensures x > y <==> x > 0.0 && x * x > y * y
  {
    assert x * x - y * y == (x - y) * (x + y);
  }

  // The test on the signed margin is the one without the square root.
  lemma MarginTest(f: Facet, norm: real, point: Point)
    requires Complete(f.normal, point) && norm > 0.0 && norm * norm == NormSquared(f.normal)
    ensures Margin(f, norm, point) < -TOLERANCE <==> Outside(f, point)
  {
    var x := Dot(f.normal, point) - f.bound;
    Quotient(f.bound - Dot(f.normal, point), norm);
    MarginSign(Margin(f, norm, point), x, norm);
    SquareOrder(x, TOLERANCE * norm);
    assert (TOLERANCE * norm) * (TOLERANCE * norm) == 0.000000000000000001 * (norm * norm);
  }

  // One line of the report; a facet with missing axes is hard and has no margin.
  datatype FacetResult = FacetResult(id: string, severity: Severity, margin: Option<real>)

  datatype GeometryReport = GeometryReport(
    feasible: bool, minimum: Option<real>, results: seq<FacetResult>, violations: Report)

  function ResultOf(f: Facet, norm: real, point: Point): FacetResult
    requires norm > 0.0
  {
    if Complete(f.normal, point) then FacetResult(f.id, f.severity, Some(Margin(f, norm, point)))
    else FacetResult(f.id, Hard, None)
  }

  function Results(facets: seq<Facet>, norms: seq<real>, point: Point): seq<FacetResult>
    requires Norms(facets, norms)
  {
    seq(|facets|, i requires 0 <= i < |facets| => ResultOf(facets[i], norms[i], point))
  }

  // `m` is the least margin measured, if any was.
  ghost predicate IsMinimum(results: seq<FacetResult>, m: Option<real>) {
    && (m.None? ==> forall i :: 0 <= i < |results| ==> results[i].margin.None?)
    && (m.Some? ==>
          && (exists i :: 0 <= i < |results| && results[i].margin == m)
          && (forall i :: 0 <= i < |results| && results[i].margin.Some? ==> m.value <= results[i].margin.value))
  }

  method LeastMargin(results: seq<FacetResult>) returns (m: Option<real>)
    ensures IsMinimum(results, m)
  {
    m := None;
    for i := 0 to |results|
      invariant m.None? ==> forall j :: 0 <= j < i ==> results[j].margin.None?
      invariant m.Some? ==> exists j :: 0 <= j < i && results[j].margin == m
      invariant m.Some? ==> forall j :: 0 <= j < i && results[j].margin.Some? ==> m.value <= results[j].margin.value
    {
      if results[i].margin.Some? && (m.None? || results[i].margin.value < m.value) { m := results[i].margin; }
    }
  }

  method MeasureFacet(point: Point, f: Facet, norm: real) returns (result: FacetResult, hard: bool, soft: bool)
    requires norm > 0.0 && norm * norm == NormSquared(f.normal)
    ensures result == ResultOf(f, norm, point)
    ensures hard == ViolatesHard(f, point) && soft == ViolatesSoft(f, point)
  {
    if !Complete(f.normal, point) { return FacetResult(f.id, Hard, None), true, false; }
    var value, _ := WeighFacet(f, point);
    var margin := (f.bound - value) / norm;
    MarginTest(f, norm, point);
    var beyond := margin < -TOLERANCE;
    return FacetResult(f.id, f.severity, Some(margin)), beyond && f.severity != Soft, beyond && f.severity == Soft;
  }

  method MeasureFacets(point: Point, facets: seq<Facet>, norms: seq<real>)
    returns (violations: Report, results: seq<FacetResult>)
    requires Norms(facets, norms)
    ensures violations == Violations(facets, point) && results == Results(facets, norms, point)
  {
    var hard, soft := [], [];
    results := [];
    for i := 0 to |facets|
      invariant Report(hard, soft) == Violations(facets[..i], point)
      invariant |results| == i && forall j :: 0 <= j < i ==> results[j] == ResultOf(facets[j], norms[j], point)
    {
      assert facets[..i + 1][..i] == facets[..i];
      var result, isHard, isSoft := MeasureFacet(point, facets[i], norms[i]);
      results := results + [result];
      if isHard { hard := hard + [facets[i].id]; }
      if isSoft { soft := soft + [facets[i].id]; }
    }
    assert facets[..|facets|] == facets;
    violations := Report(hard, soft);
  }

  // evaluate_geometry; None when the point is refused. An unknown geometry is one hard
  // violation and measures nothing.
  method EvaluateGeometry(point: Point, geometry: string, configured: string, facets: seq<Facet>, norms: seq<real>)
    returns (report: Option<GeometryReport>)
    requires Norms(facets, norms)
    ensures geometry != configured ==>
      report == Some(GeometryReport(false, None, [], Report(["unknown-geometry"], [])))
    ensures geometry == configured && !ValidPoint(point) ==> report == None
    ensures geometry == configured && ValidPoint(point) ==>
      && report.Some? && report.value.violations == Violations(facets, point)
      && report.value.results == Results(facets, norms, point)
      && report.value.feasible == (Violations(facets, point).hard == [])
      && IsMinimum(report.value.results, report.value.minimum)
  {
    if geometry != configured { return Some(GeometryReport(false, None, [], Report(["unknown-geometry"], []))); }
    if !ValidPoint(point) { return None; }
    var violations, results := MeasureFacets(point, facets, norms);
    var minimum := LeastMargin(results);
    report := Some(GeometryReport(violations.hard == [], minimum, results, violations));
  }

  lemma {:induction false} NoViolationMeansEveryFacet(facets: seq<Facet>, point: Point)
    ensures Violations(facets, point).hard == [] <==> forall i :: 0 <= i < |facets| ==> !ViolatesHard(facets[i], point)
    ensures Violations(facets, point).soft == [] <==> forall i :: 0 <= i < |facets| ==> !ViolatesSoft(facets[i], point)
  {
    if facets != [] {
      var init := facets[..|facets| - 1];
      NoViolationMeansEveryFacet(init, point);
      assert forall i :: 0 <= i < |init| ==> facets[i] == init[i];
    }
  }

  // ---------------------------------------------------------------- kernel

  const EPSILON := 0.000001
  const HARD_VETO_BELOW := 0.75
  const FLAG_BELOW := 0.90

  function Load(p: real, v: real): (r: real)
    ensures Unit(p) && Unit(v) ==> r > 0.0
  {
    p * v + EPSILON
  }

  // S = k / (p v + epsilon), compared with a floor, for inputs in the unit interval.
  function S(p: real, v: real, k: real): real
    requires Load(p, v) > 0.0
  {
    k / Load(p, v)
  }

  // The kernel in ENFORCE mode, by what its reason lists contain.
  function KernelDecision(p: real, v: real, k: real, point: Point, facets: seq<Facet>,
                          hardGates: seq<string>, softGates: seq<string>): Option<Decision> {
    if !Unit(p) || !Unit(v) || !Unit(k) || !ValidPoint(point) then None
    else
      var r := Violations(facets, point);
      if hardGates != [] || S(p, v, k) <= HARD_VETO_BELOW || r.hard != [] then Some(HardVeto)
      else if softGates != [] || S(p, v, k) < FLAG_BELOW || r.soft != [] then Some(Flag)
      else Some(Pass)
  }

  method AdjudicateKernel(p: real, v: real, k: real, point: Point, facets: seq<Facet>, norms: seq<real>,
                          hardGates: seq<string>, softGates: seq<string>)
    returns (decision: Option<Decision>, reasons: seq<string>)
    requires Norms(facets, norms)
    ensures decision == KernelDecision(p, v, k, point, facets, hardGates, softGates)
    ensures decision == Some(HardVeto) ==> hardGates <= reasons && reasons != []
  {
    reasons := [];
    if !Unit(p) || !Unit(v) || !Unit(k) { return None, []; }
    var score := S(p, v, k);
    var geometry := EvaluateGeometry(point, GEOMETRY_ID, GEOMETRY_ID, facets, norms);
    if geometry.None? { return None, []; }
    var hard := hardGates;
    if score <= HARD_VETO_BELOW { hard := hard + ["score at or below the hard-veto floor"]; }
    hard := hard + geometry.value.violations.hard;
    var soft := softGates;
    if score < FLAG_BELOW { soft := soft + ["score below the flag floor"]; }
    soft := soft + geometry.value.violations.soft;
    if hard != [] { return Some(HardVeto), hard; }
    if soft != [] { return Some(Flag), soft; }
    decision := Some(Pass);
  }

  // ---------------------------------------------------------------- adapter

  datatype Adapter = Adapter(tauFloor: real, alertFloor: real, blockFloor: real)

  const DEFAULT := Adapter(0.42, 0.35, 0.20)

  // The measurements handed to the adapter; None is a missing measurement.
  datatype Inputs = Inputs(
    pressure: real, velocity: real, capacity: real, optionSpace: Option<real>,
    authority: Option<real>, contextFit: Option<real>, evidenceQuality: Option<real>, irreversibility: real)

  function OrNeutral(x: Option<real>): real { if x.Some? then x.value else 0.5 }

  function Coordinates(x: Inputs): Point {
    map[Pressure := x.pressure, Velocity := x.velocity, Capacity := x.capacity,
        Irreversibility := x.irreversibility, Authority := OrNeutral(x.authority),
        ContextFit := OrNeutral(x.contextFit), EvidenceQuality := OrNeutral(x.evidenceQuality),
        OptionSpace := OrNeutral(x.optionSpace),
        CooperativeControl := 0.5, TrajectoryRisk := 0.5, ManipulationRisk := 0.5, Drift := 0.5]
  }

  function Missing(x: Option<real>, axis: string): seq<string> { if x.None? then [axis] else [] }

  // The first gate is the tau preview, computed before the inputs are validated.
  function HardGates(c: Adapter, x: Inputs): seq<string>
    requires Unit(x.pressure) && Unit(x.velocity)
  {
    (if S(x.pressure, x.velocity, x.capacity) <= c.tauFloor then ["tau breach"] else [])
    + (if x.optionSpace.Some? && x.optionSpace.value <= c.blockFloor then ["option_space block floor"] else [])
    + Missing(x.authority, "authority missing") + Missing(x.contextFit, "context_fit missing")
    + Missing(x.evidenceQuality, "evidence_quality missing")
  }

  function SoftGates(c: Adapter, x: Inputs): seq<string> {
    (if x.optionSpace.Some? && c.blockFloor < x.optionSpace.value <= c.alertFloor
     then ["option_space alert floor"] else [])
    + Missing(x.authority, "authority") + Missing(x.contextFit, "context_fit")
    + Missing(x.evidenceQuality, "evidence_quality") + Missing(x.optionSpace, "option_space")
    + ["cooperative_control_score", "trajectory_risk_score", "manipulation_risk", "drift"]
  }

  // None when the kernel raises.
  function Score(c: Adapter, x: Inputs): Option<Decision> {
    if !Unit(x.pressure) || !Unit(x.velocity) then None
    else KernelDecision(x.pressure, x.velocity, x.capacity, Coordinates(x), REFERENCE, HardGates(c, x), SoftGates(c, x))
  }

  predicate UnitOrMissing(x: Option<real>) { x.Some? ==> Unit(x.value) }

  predicate InRange(x: Inputs) {
    && Unit(x.pressure) && Unit(x.velocity) && Unit(x.capacity) && Unit(x.irreversibility)
    && UnitOrMissing(x.optionSpace) && UnitOrMissing(x.authority)
    && UnitOrMissing(x.contextFit) && UnitOrMissing(x.evidenceQuality)
  }

  lemma RangeIsPointRange(x: Inputs)
    ensures InRange(x) <==> Unit(x.pressure) && Unit(x.velocity) && Unit(x.capacity) && ValidPoint(Coordinates(x))
  {
    var point := Coordinates(x);
    if ValidPoint(point) {
      assert Unit(point[Irreversibility]) && Unit(point[OptionSpace]) && Unit(point[Authority]);
      assert Unit(point[ContextFit]) && Unit(point[EvidenceQuality]);
    }
  }

  // The adapter answers exactly on in-range inputs, and then never PASS nor HOLD: four axes
  // are never measured, so some soft reason always remains.
  lemma AnswersFlagOrVeto(c: Adapter, x: Inputs)
    ensures Score(c, x).Some? <==> InRange(x)
    ensures InRange(x) ==> Score(c, x) == Some(Flag) || Score(c, x) == Some(HardVeto)
  {
    RangeIsPointRange(x);
    assert SoftGates(c, x)[|SoftGates(c, x)| - 1] == "drift";
  }

  // What vetoes, spelled out.
  predicate Breach(c: Adapter, x: Inputs)
    requires InRange(x)
  {
    || S(x.pressure, x.velocity, x.capacity) <= c.tauFloor
    || S(x.pressure, x.velocity, x.capacity) <= HARD_VETO_BELOW
    || (x.optionSpace.Some? && x.optionSpace.value <= c.blockFloor)
    || x.authority.None? || x.contextFit.None? || x.evidenceQuality.None?
    || Beyond(0.50 - x.authority.value, 1.0)
    || Beyond(0.50 - x.contextFit.value, 1.0)
    || Beyond(x.irreversibility - x.authority.value - 0.25, 2.0)
  }

  lemma OneAxis(a: Axis, c: real, point: Point)
    requires a in point
    ensures Complete([(a, c)], point) && Dot([(a, c)], point) == c * point[a] && NormSquared([(a, c)]) == c * c
  {
    assert [(a, c)][..0] == [];
  }

  lemma TwoAxes(a: Axis, c: real, b: Axis, d: real, point: Point)
    requires a in point && b in point
    ensures var n := [(a, c), (b, d)];
      Complete(n, point) && Dot(n, point) == c * point[a] + d * point[b] && NormSquared(n) == c * c + d * d
  {
    assert [(a, c), (b, d)][..1] == [(a, c)];
    OneAxis(a, c, point);
  }

  lemma FloorFacets(point: Point)
    requires Authority in point && ContextFit in point
    ensures ViolatesHard(REFERENCE[0], point) <==> Beyond(0.50 - point[Authority], 1.0)
    ensures ViolatesHard(REFERENCE[1], point) <==> Beyond(0.50 - point[ContextFit], 1.0)
  {
    OneAxis(Authority, -1.0, point);
    OneAxis(ContextFit, -1.0, point);
  }

  lemma BoundaryFacet(point: Point)
    requires Authority in point && Irreversibility in point
    ensures ViolatesHard(REFERENCE[2], point) <==> Beyond(point[Irreversibility] - point[Authority] - 0.25, 2.0)
  {
    TwoAxes(Irreversibility, 1.0, Authority, -1.0, point);
  }

  lemma SoftFacets(point: Point)
    requires EvidenceQuality in point && Pressure in point && Velocity in point && Capacity in point
    ensures !ViolatesHard(REFERENCE[3], point) && !ViolatesHard(REFERENCE[4], point)
  {}

  lemma FiveFacets(facets: seq<Facet>, point: Point)
    requires |facets| == 5
    ensures Violations(facets, point).hard != []
      <==> || ViolatesHard(facets[0], point) || ViolatesHard(facets[1], point) || ViolatesHard(facets[2], point)
           || ViolatesHard(facets[3], point) || ViolatesHard(facets[4], point)
  {
    NoViolationMeansEveryFacet(facets, point);
  }

  lemma ReferenceHardFacets(x: Inputs)
    ensures Violations(REFERENCE, Coordinates(x)).hard != []
      <==> || Beyond(0.50 - OrNeutral(x.authority), 1.0)
           || Beyond(0.50 - OrNeutral(x.contextFit), 1.0)
           || Beyond(x.irreversibility - OrNeutral(x.authority) - 0.25, 2.0)
  {
    var point := Coordinates(x);
    FiveFacets(REFERENCE, point);
    FloorFacets(point);
    BoundaryFacet(point);
    SoftFacets(point);
  }

  // HARD_VETO exactly on a breach. Pressure, velocity and capacity act only through S: the
  // load-capacity and evidence-quality facets are soft and change nothing here.
  lemma VetoExactly(c: Adapter, x: Inputs)
    requires InRange(x)
    ensures Score(c, x) == Some(HardVeto) <==> Breach(c, x)
  {
    AnswersFlagOrVeto(c, x);
    RangeIsPointRange(x);
    ReferenceHardFacets(x);
    var gates := HardGates(c, x);
    assert Missing(x.authority, "authority missing") != [] <==> x.authority.None?;
  }

  // The adapter's adjudicate: gate reasons are collected in order and handed to the kernel.
  method AdjudicateScoring(c: Adapter, x: Inputs, norms: seq<real>) returns (decision: Option<Decision>)
    requires Norms(REFERENCE, norms)
    ensures decision == Score(c, x)
  {
    if !Unit(x.pressure) || !Unit(x.velocity) { return None; }
    var hard, soft := [], [];
    if S(x.pressure, x.velocity, x.capacity) <= c.tauFloor { hard := hard + ["tau breach"]; }
    if x.optionSpace.Some? {
      if x.optionSpace.value <= c.blockFloor { hard := hard + ["option_space block floor"]; }
      else if x.optionSpace.value <= c.alertFloor { soft := soft + ["option_space alert floor"]; }
    }
    var unmeasured := Missing(x.authority, "authority") + Missing(x.contextFit, "context_fit")
      + Missing(x.evidenceQuality, "evidence_quality") + Missing(x.optionSpace, "option_space");
    soft := soft + unmeasured + ["cooperative_control_score", "trajectory_risk_score", "manipulation_risk", "drift"];
    hard := hard + Missing(x.authority, "authority missing") + Missing(x.contextFit, "context_fit missing")
      + Missing(x.evidenceQuality, "evidence_quality missing");
    assert hard == HardGates(c, x) && soft == SoftGates(c, x);
    var reasons: seq<string>;
    decision, reasons :=
      AdjudicateKernel(x.pressure, x.velocity, x.capacity, Coordinates(x), REFERENCE, norms, hard, soft);
  }

  // ---------------------------------------------------------------- monotonicity

  predicate NoMore(a: Option<real>, b: Option<real>) {
    b.Some? ==> a.Some? && b.value <= a.value
  }

  // `b` is nowhere better than `a`: a required measurement is lower or gone, and a measured
  // option space is lower.
  predicate Worse(a: Inputs, b: Inputs) {
    && a.pressure <= b.pressure && a.velocity <= b.velocity && a.capacity >= b.capacity
    && a.irreversibility <= b.irreversibility
    && NoMore(a.authority, b.authority) && NoMore(a.contextFit, b.contextFit)
    && NoMore(a.evidenceQuality, b.evidenceQuality)
    && (a.optionSpace.Some? <==> b.optionSpace.Some?) && NoMore(a.optionSpace, b.optionSpace)
  }

  lemma BeyondGrows(x: real, y: real, n: real)
    requires Beyond(x, n) && x <= y
    ensures Beyond(y, n)
  {
    assert x * x <= x * y <= y * y;
  }

  lemma ProductGrows(p: real, v: real, q: real, w: real)
    requires 0.0 <= p <= q && 0.0 <= v <= w
    ensures 0.0 <= p * v <= q * w
  {
    assert p * v <= p * w <= q * w;
  }

  lemma QuotientOfLoad(p: real, v: real, k: real, q: real, w: real, l: real)
    requires 0.0 <= p <= q && 0.0 <= v <= w && 0.0 <= l <= k
    ensures Load(p, v) > 0.0 && Load(q, w) > 0.0
    ensures S(q, w, l) <= S(p, v, k)
  {
    ProductGrows(p, v, q, w);
    QuotientFalls(k, Load(p, v), l, Load(q, w));
  }

  lemma ScoreFalls(a: Inputs, b: Inputs)
    requires InRange(a) && InRange(b) && Worse(a, b)
    ensures S(b.pressure, b.velocity, b.capacity) <= S(a.pressure, a.velocity, a.capacity)
  {
    QuotientOfLoad(a.pressure, a.velocity, a.capacity, b.pressure, b.velocity, b.capacity);
  }

  lemma QuotientFalls(k: real, d: real, l: real, e: real)
    requires 0.0 <= l <= k && 0.0 < d <= e
    ensures l / e <= k / d
  {
    var (x, y) := (l / e, k / d);
    Divided(k, d);
    Divided(l, e);
    ProductGrows(y, d, y, e);
    Cancel(x, y, e);
  }

  lemma Divided(k: real, d: real)
    requires 0.0 <= k && 0.0 < d
    ensures (k / d) * d == k && k / d >= 0.0
  {}

  lemma Cancel(x: real, y: real, e: real)
    requires e > 0.0 && x * e <= y * e
    ensures x <= y
  {
    assert (x - y) * e <= 0.0;
  }

  lemma WorseInputsNeverMilder(c: Adapter, a: Inputs, b: Inputs)
    requires InRange(a) && InRange(b) && Worse(a, b)
    ensures Score(c, a) == Some(HardVeto) ==> Score(c, b) == Some(HardVeto)
  {
    VetoExactly(c, a);
    VetoExactly(c, b);
    ScoreFalls(a, b);
    if b.authority.Some? && b.contextFit.Some? && b.evidenceQuality.Some? && Breach(c, a) {
      if Beyond(0.50 - a.authority.value, 1.0) { BeyondGrows(0.50 - a.authority.value, 0.50 - b.authority.value, 1.0); }
      if Beyond(0.50 - a.contextFit.value, 1.0) {
        BeyondGrows(0.50 - a.contextFit.value, 0.50 - b.contextFit.value, 1.0);
      }
      if Beyond(a.irreversibility - a.authority.value - 0.25, 2.0) {
        BeyondGrows(a.irreversibility - a.authority.value - 0.25, b.irreversibility - b.authority.value - 0.25, 2.0);
      }
    }
  }

  function WithScore(c: Adapter, x: Inputs, e: Evidence): Evidence { e.(scoring := Score(c, x)) }

  // Making any measurement, the membrane verdict or the utilization worse never makes the
  // composed decision milder.
  lemma WorseNeverComposesMilder(c: Adapter, a: Inputs, b: Inputs, e: Evidence, f: Evidence)
    requires InRange(a) && InRange(b) && Worse(a, b)
    requires e.membrane.Some? && f.membrane.Some?
    requires Lattice.Severity(e.membrane.value) <= Lattice.Severity(f.membrane.value)
    requires e.budgetInScope == f.budgetInScope && e.threshold == f.threshold
    requires UtilizationNoBetter(e.utilization, f.utilization, e.budgetInScope)
    ensures Lattice.Severity(Compose(WithScore(c, a, e))) <= Lattice.Severity(Compose(WithScore(c, b, f)))
  {
    AnswersFlagOrVeto(c, a);
    AnswersFlagOrVeto(c, b);
    WorseInputsNeverMilder(c, a, b);
    ComposeIsMonotone(WithScore(c, a, e), WithScore(c, b, f));
  }

  // The one measurement worth withholding: without its option space an operation escapes
  // the veto exactly when that was the only breach.
  lemma OmittingOptionSpaceEscapes(c: Adapter, x: Inputs)
    requires InRange(x) && x.optionSpace.Some?
    ensures Score(c, x) == Some(HardVeto) && Score(c, x.(optionSpace := None)) == Some(Flag)
      <==> x.optionSpace.value <= c.blockFloor && !Breach(c, x.(optionSpace := None))
  {
    VetoExactly(c, x);
    VetoExactly(c, x.(optionSpace := None));
    AnswersFlagOrVeto(c, x.(optionSpace := None));
  }
}
