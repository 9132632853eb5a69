// The partner policy bundle, the shared policy engine it is converted to, and the engine's
// membrane decision (r4/tenir_v4_test/models.py, tenir_governance/policy_engine.py).
module MembranePolicy {
  import opened Wrappers

  datatype Mode = ShadowOff | ShadowPassive | ShadowCritical | Enforce

  // The thresholds both policies share.
  datatype Bundle = Bundle(
    version: string, epsilon: real, sAlert: real, sBlock: real, dsAlert: real, d2sAlert: real,
    reactionBudget: int, window: int, optionAlert: real, optionBlock: real, tau: real)

  predicate Unit(x: real) { 0.0 <= x <= 1.0 }

  // What str.strip removes: the Unicode white space, with the four ASCII separators.
  predicate Space(c: char) {
    var n := c as int;
    || 0x09 <= n <= 0x0D || 0x1C <= n <= 0x20 || n == 0x85 || n == 0xA0 || n == 0x1680
    || 0x2000 <= n <= 0x200A || n == 0x2028 || n == 0x2029 || n == 0x202F || n == 0x205F || n == 0x3000
  }

  predicate Blank(s: string) { forall i :: 0 <= i < |s| ==> Space(s[i]) }

  const MIN_EPSILON := 0.000000000000001

  // PolicyBundle.validate
  predicate BundleValid(b: Bundle) {
    && b.epsilon >= MIN_EPSILON && Unit(b.tau) && b.window >= 3 && b.reactionBudget >= 1
    && Unit(b.optionAlert) && Unit(b.optionBlock)
    && b.sBlock <= b.sAlert && b.optionBlock <= b.optionAlert && b.tau < b.sBlock
  }

  // PolicyEngine.validate, for an engine with its default scope, confidence and epoch size.
  predicate EngineValid(b: Bundle) {
    && !Blank(b.version)
    && b.epsilon >= MIN_EPSILON && b.sAlert >= 0.0 && b.sBlock >= 0.0 && Unit(b.tau)
    && b.dsAlert <= 0.0 && b.d2sAlert <= 0.0 && Unit(b.optionAlert) && Unit(b.optionBlock)
    && b.window >= 3 && b.reactionBudget >= 1
    && b.sBlock <= b.sAlert && b.optionBlock <= b.optionAlert && b.tau < b.sBlock
  }

  // The engine is stricter than the bundle in exactly these points.
  lemma ConversionSucceedsExactly(b: Bundle)
    requires BundleValid(b)
    ensures EngineValid(b) <==> !Blank(b.version) && b.dsAlert <= 0.0 && b.d2sAlert <= 0.0
  {}

  // ---------------------------------------------------------------- one reading

  // S, its first and second event derivative, and the projected events to zero.
  datatype Reading = Reading(s: real, ds: real, d2s: real, horizon: Option<int>)

  function Ceil(x: real): int { -((-x).Floor) }

  function Horizon(s: real, ds: real): Option<int> {
    if ds < 0.0 then
      var n := Ceil(s / -ds);
      Some(if n < 0 then 0 else n)
    else None
  }

  predicate AtMost(x: Option<int>, n: int) { x.Some? && x.value <= n }

  predicate Low(x: Option<real>, floor: real) { x.Some? && x.value <= floor }

  function HalfBudget(b: Bundle): int {
    if b.reactionBudget / 2 < 1 then 1 else b.reactionBudget / 2
  }

  predicate Alert(b: Bundle, r: Reading, option: Option<real>) {
    || r.s <= b.sAlert || r.ds <= b.dsAlert || r.d2s <= b.d2sAlert
    || AtMost(r.horizon, b.reactionBudget) || Low(option, b.optionAlert)
  }

  predicate Block(b: Bundle, r: Reading, option: Option<real>) {
    r.s <= b.sBlock || AtMost(r.horizon, HalfBudget(b)) || Low(option, b.optionBlock)
  }

  // ---------------------------------------------------------------- membrane

  datatype Membrane = NotEvaluated | Allow | AllowWithAlert | AllowWithIntendedBlock | Blocked

  datatype Ruling = Ruling(decision: Membrane, alert: bool, block: bool)

  // evaluate_membrane: reasons are collected in two lists and only their emptiness counts.
  method EvaluateMembrane(b: Bundle, r: Reading, option: Option<real>, mode: Mode) returns (ruling: Ruling)
    requires b.tau < b.sBlock
    ensures ruling == EngineRuling(b, r, option, mode)
  {
    var alerts: seq<string>, blocks: seq<string> := [], [];
    if mode == ShadowOff { return Ruling(NotEvaluated, false, false); }
    if r.s <= b.sAlert { alerts := alerts + ["S at or below alert floor"]; }
    if r.ds <= b.dsAlert { alerts := alerts + ["dS at or below alert floor"]; }
    if r.d2s <= b.d2sAlert { alerts := alerts + ["d2S at or below alert floor"]; }
    if AtMost(r.horizon, b.reactionBudget) { alerts := alerts + ["horizon within reaction budget"]; }
    if Low(option, b.optionAlert) { alerts := alerts + ["option space at or below alert floor"]; }
    if r.s <= b.sBlock { blocks := blocks + ["S at or below block floor"]; }
    if r.s <= b.tau { blocks := blocks + ["tau breach"]; }
    if AtMost(r.horizon, HalfBudget(b)) { blocks := blocks + ["collapse horizon critically near"]; }
    if Low(option, b.optionBlock) { blocks := blocks + ["option space at or below block floor"]; }
    var alert, block := alerts != [], blocks != [];
    if !alert && !block { return Ruling(Allow, alert, block); }
    if block { return Ruling(if mode == Enforce then Blocked else AllowWithIntendedBlock, alert, block); }
    ruling := Ruling(AllowWithAlert, alert, block);
  }

  // The tau floor adds nothing: a validated policy keeps it below the block floor.
  function EngineRuling(b: Bundle, r: Reading, option: Option<real>, mode: Mode): Ruling {
    if mode == ShadowOff then Ruling(NotEvaluated, false, false)
    else
      var (alert, block) := (Alert(b, r, option), Block(b, r, option));
      Ruling(if block then if mode == Enforce then Blocked else AllowWithIntendedBlock
             else if alert then AllowWithAlert else Allow, alert, block)
  }
}
