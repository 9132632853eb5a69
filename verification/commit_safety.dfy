// What holds of the commit authority over every run: interleaved authorizations,
// consumptions and anchor updates by any number of callers, with faults anywhere.
module CommitSafety {
  import opened Wrappers
  import opened Trust
  import opened Checkpoints
  import opened CommitRecords
  import opened CommitAuthority

  datatype Action =
    | DoAuthorize(request: Request, inputs: Inputs, fault: Interrupt)
    | DoConsume(request: Request, receipt: AuthReceipt, claim: string, fault: Interrupt)
    | DoAnchor(call: Call)

  function Apply(cfg: Config, s: Store, a: Action): Store {
    match a
    case DoAuthorize(r, x, fault) => Authorizing(cfg, s, r, x, fault).0
    case DoConsume(r, receipt, claim, fault) => Consuming(cfg, s, r, receipt, claim, fault).0
    case DoAnchor(call) => s.(checkpoint := After(s.checkpoint, call))
  }

  ghost predicate StepAt(cfg: Config, trace: seq<Store>, actions: seq<Action>, i: nat)
    requires i < |actions| && |trace| == |actions| + 1
  {
    trace[i + 1] == Apply(cfg, trace[i], actions[i])
  }

  ghost predicate Run(cfg: Config, trace: seq<Store>, actions: seq<Action>) {
    && |trace| == |actions| + 1
    && trace[0] == Store(None, [], [])
    && forall i :: 0 <= i < |actions| ==> StepAt(cfg, trace, actions, i)
  }

  // ---------------------------------------------------------------- the invariant

  // The checkpoint a request's binding names.
  function Bound(r: Request): Checkpoint { Checkpoint(r.binding.trustRevision, r.binding.snapshotDigest) }

  predicate AuthRowSound(cfg: Config, row: AuthRow, n: int) {
    && row == AuthRowFor(cfg, row.envelope, row.decision, row.reason, row.body.checkpoint, n)
    && cfg.valid(row.envelope)
    && ReadableCheckpoint(row.body.checkpoint)
    && (row.decision == Authorized ==>
          && Names(cfg, row.envelope.binding)
          && row.body.checkpoint == Some(Bound(row.envelope)))
  }

  predicate ConsRowSound(cfg: Config, row: ConsRow, n: int, auth: Option<AuthRow>) {
    && auth.Some?
    && row == ConsRowFor(cfg, auth.value.envelope, auth.value.sequence, row.claim, row.decision, row.body.checkpoint, n)
    && ReadableCheckpoint(row.body.checkpoint)
    && Names(cfg, auth.value.envelope.binding)
    && (row.decision == Consumed ==>
          auth.value.decision == Authorized && row.body.checkpoint == auth.value.body.checkpoint)
  }

  ghost predicate AuthsSound(cfg: Config, auths: seq<AuthRow>) {
    && (forall i :: 0 <= i < |auths| ==> AuthRowSound(cfg, auths[i], i + 1))
    && (forall i, j :: 0 <= i < j < |auths| ==> auths[i].requestId != auths[j].requestId)
  }

  ghost predicate ConsSound(cfg: Config, auths: seq<AuthRow>, cons: seq<ConsRow>) {
    forall i :: 0 <= i < |cons| ==> ConsRowSound(cfg, cons[i], i + 1, FindAuth(auths, cons[i].requestId))
  }

  ghost predicate ConsDistinct(cons: seq<ConsRow>) {
    && (forall i, j :: 0 <= i < j < |cons| ==> cons[i].requestId != cons[j].requestId)
    && (forall i, j :: 0 <= i < j < |cons| ==> cons[i].claim != cons[j].claim)
  }

  // Both tables are numbered 1..n, every consumption follows a recorded authorization that
  // names this authority, and no request or claim is consumed twice.
  ghost predicate Sound(cfg: Config, s: Store) {
    && ReadableCheckpoint(s.checkpoint)
    && AuthsSound(cfg, s.auths)
    && ConsSound(cfg, s.auths, s.cons)
    && ConsDistinct(s.cons)
  }

  lemma {:induction false} MaxAuthIsLength(cfg: Config, auths: seq<AuthRow>)
    requires forall i :: 0 <= i < |auths| ==> auths[i].sequence == i + 1
    ensures MaxAuth(auths) == |auths|
  {
    if auths != [] { MaxAuthIsLength(cfg, auths[..|auths| - 1]); }
  }

  lemma {:induction false} MaxConsIsLength(cons: seq<ConsRow>)
    requires forall i :: 0 <= i < |cons| ==> cons[i].sequence == i + 1
    ensures MaxCons(cons) == |cons|
  {
    if cons != [] { MaxConsIsLength(cons[..|cons| - 1]); }
  }

  lemma {:induction false} FindAuthExtends(rows: seq<AuthRow>, row: AuthRow, id: string)
    ensures FindAuth(rows + [row], id)
         == if FindAuth(rows, id).Some? then FindAuth(rows, id)
            else if row.requestId == id then Some(row) else None
  {
    if rows == [] {
      assert rows + [row] == [row];
    } else {
      assert (rows + [row])[1..] == rows[1..] + [row];
      FindAuthExtends(rows[1..], row, id);
    }
  }

  lemma {:induction false} FindConsExtends(rows: seq<ConsRow>, row: ConsRow, id: string)
    ensures FindCons(rows + [row], id)
         == if FindCons(rows, id).Some? then FindCons(rows, id)
            else if row.requestId == id then Some(row) else None
  {
    if rows == [] {
      assert rows + [row] == [row];
    } else {
      assert (rows + [row])[1..] == rows[1..] + [row];
      FindConsExtends(rows[1..], row, id);
    }
  }

  lemma EvaluationGrants(cfg: Config, r: Request, x: Inputs, current: Option<Checkpoint>)
    requires Evaluation(cfg, r, x, current).0 == Authorized
    ensures Names(cfg, r.binding)
    ensures current == Some(Bound(r))
  {}

  lemma NewAuthIsSound(cfg: Config, s: Store, r: Request, x: Inputs)
    requires Sound(cfg, s) && cfg.valid(r)
    ensures AuthRowSound(cfg, NewAuth(cfg, s, r, x), |s.auths| + 1)
  {
    MaxAuthIsLength(cfg, s.auths);
    if Evaluation(cfg, r, x, s.checkpoint).0 == Authorized { EvaluationGrants(cfg, r, x, s.checkpoint); }
  }

  lemma NewIdIsDistinct(auths: seq<AuthRow>, row: AuthRow)
    requires forall i, j :: 0 <= i < j < |auths| ==> auths[i].requestId != auths[j].requestId
    requires FindAuth(auths, row.requestId).None?
    ensures var longer := auths + [row];
      forall i, j :: 0 <= i < j < |longer| ==> longer[i].requestId != longer[j].requestId
  {}

  lemma AppendAuth(cfg: Config, auths: seq<AuthRow>, row: AuthRow)
    requires AuthsSound(cfg, auths) && AuthRowSound(cfg, row, |auths| + 1) && FindAuth(auths, row.requestId).None?
    ensures AuthsSound(cfg, auths + [row])
  {
    var longer := auths + [row];
    NewIdIsDistinct(auths, row);
    forall i | 0 <= i < |longer| ensures AuthRowSound(cfg, longer[i], i + 1) {
      if i < |auths| { assert AuthRowSound(cfg, auths[i], i + 1); } else { assert longer[i] == row; }
    }
  }

  lemma ConsSoundStays(cfg: Config, auths: seq<AuthRow>, cons: seq<ConsRow>, row: AuthRow)
    requires ConsSound(cfg, auths, cons)
    ensures ConsSound(cfg, auths + [row], cons)
  {
    forall i | 0 <= i < |cons|
      ensures FindAuth(auths + [row], cons[i].requestId) == FindAuth(auths, cons[i].requestId)
    {
      assert ConsRowSound(cfg, cons[i], i + 1, FindAuth(auths, cons[i].requestId));
      FindAuthExtends(auths, row, cons[i].requestId);
    }
  }

  lemma AppendCons(cfg: Config, auths: seq<AuthRow>, cons: seq<ConsRow>, row: ConsRow)
    requires ConsSound(cfg, auths, cons) && ConsRowSound(cfg, row, |cons| + 1, FindAuth(auths, row.requestId))
    ensures ConsSound(cfg, auths, cons + [row])
  {
    var longer := cons + [row];
    forall i | 0 <= i < |longer|
      ensures ConsRowSound(cfg, longer[i], i + 1, FindAuth(auths, longer[i].requestId))
    {
      if i < |cons| { assert ConsRowSound(cfg, cons[i], i + 1, FindAuth(auths, cons[i].requestId)); }
    }
  }

  lemma AppendDistinct(cons: seq<ConsRow>, row: ConsRow)
    requires ConsDistinct(cons) && FindCons(cons, row.requestId).None? && !ClaimUsed(cons, row.claim)
    ensures ConsDistinct(cons + [row])
  {}

  lemma AuthorizingKeepsSound(cfg: Config, s: Store, r: Request, x: Inputs, fault: Interrupt)
    requires Sound(cfg, s)
    ensures Sound(cfg, Authorizing(cfg, s, r, x, fault).0)
  {
    if cfg.valid(r) && FindAuth(s.auths, r.id).None? {
      NewAuthIsSound(cfg, s, r, x);
      AppendAuth(cfg, s.auths, NewAuth(cfg, s, r, x));
      ConsSoundStays(cfg, s.auths, s.cons, NewAuth(cfg, s, r, x));
    }
  }

  // A receipt that verifies and is recorded belongs to a sound row for the same request.
  lemma PresentedIsSound(cfg: Config, s: Store, r: Request, a: AuthReceipt)
    requires Sound(cfg, s) && Presented(cfg, s, r, a).Some?
    ensures var row := Presented(cfg, s, r, a).value;
      && FindAuth(s.auths, r.id) == Some(row) && AuthRowSound(cfg, row, row.sequence)
      && row.envelope == r && Names(cfg, r.binding)
  {
    var row := Presented(cfg, s, r, a).value;
    var k :| 0 <= k < |s.auths| && s.auths[k] == row;
    assert AuthRowSound(cfg, s.auths[k], k + 1);
  }

  lemma NewConsIsSound(cfg: Config, s: Store, r: Request, a: AuthReceipt, claim: string)
    requires Sound(cfg, s) && Presented(cfg, s, r, a).Some?
    ensures var row := NewCons(cfg, s, r, Presented(cfg, s, r, a).value, claim);
      ConsRowSound(cfg, row, |s.cons| + 1, FindAuth(s.auths, row.requestId))
  {
    PresentedIsSound(cfg, s, r, a);
    assert forall i :: 0 <= i < |s.cons| ==>
      ConsRowSound(cfg, s.cons[i], i + 1, FindAuth(s.auths, s.cons[i].requestId));
    MaxConsIsLength(s.cons);
  }

  lemma RecordingKeepsSound(cfg: Config, s: Store, row: ConsRow)
    requires Sound(cfg, s) && ConsRowSound(cfg, row, |s.cons| + 1, FindAuth(s.auths, row.requestId))
    requires FindCons(s.cons, row.requestId).None? && !ClaimUsed(s.cons, row.claim)
    ensures Sound(cfg, s.(cons := s.cons + [row]))
  {
    AppendCons(cfg, s.auths, s.cons, row);
    AppendDistinct(s.cons, row);
  }

  predicate Records(cfg: Config, s: Store, r: Request, a: AuthReceipt, claim: string) {
    Presented(cfg, s, r, a).Some? && FindCons(s.cons, r.id).None? && !ClaimUsed(s.cons, claim)
  }

  // A consumption either changes nothing or adds the one row it is entitled to.
  lemma ConsumingShape(cfg: Config, s: Store, r: Request, a: AuthReceipt, claim: string, fault: Interrupt)
    ensures var t := Consuming(cfg, s, r, a, claim, fault).0;
      || t == s
      || (Records(cfg, s, r, a, claim)
          && t == s.(cons := s.cons + [NewCons(cfg, s, r, Presented(cfg, s, r, a).value, claim)]))
  {}

  lemma ConsumingKeepsSound(cfg: Config, s: Store, r: Request, a: AuthReceipt, claim: string, t: Store)
    requires Sound(cfg, s)
    requires t == s || (Records(cfg, s, r, a, claim)
      && t == s.(cons := s.cons + [NewCons(cfg, s, r, Presented(cfg, s, r, a).value, claim)]))
    ensures Sound(cfg, t)
  {
    if t != s {
      NewConsIsSound(cfg, s, r, a, claim);
      RecordingKeepsSound(cfg, s, NewCons(cfg, s, r, Presented(cfg, s, r, a).value, claim));
    }
  }

  lemma ApplyKeepsSound(cfg: Config, s: Store, a: Action)
    requires Sound(cfg, s)
    ensures Sound(cfg, Apply(cfg, s, a))
  {
    match a
    case DoAuthorize(r, x, fault) => AuthorizingKeepsSound(cfg, s, r, x, fault);
    case DoConsume(r, receipt, claim, fault) =>
      ConsumingShape(cfg, s, r, receipt, claim, fault);
      ConsumingKeepsSound(cfg, s, r, receipt, claim, Apply(cfg, s, a));
    case DoAnchor(call) => CallOnlyMovesForward(s.checkpoint, call);
  }

  lemma {:induction false} EveryStoreIsSound(cfg: Config, trace: seq<Store>, actions: seq<Action>, i: nat)
    requires Run(cfg, trace, actions) && i < |trace|
    ensures Sound(cfg, trace[i])
    decreases i
  {
    if i > 0 {
      EveryStoreIsSound(cfg, trace, actions, i - 1);
      assert StepAt(cfg, trace, actions, i - 1);
      ApplyKeepsSound(cfg, trace[i - 1], actions[i - 1]);
    }
  }

  // ---------------------------------------------------------------- nothing is ever lost

  predicate Extends(s: Store, t: Store) {
    s.auths <= t.auths && s.cons <= t.cons && NotBefore(s.checkpoint, t.checkpoint)
  }

  lemma ApplyExtends(cfg: Config, s: Store, a: Action)
    ensures Extends(s, Apply(cfg, s, a))
  {
    match a
    case DoAuthorize(r, x, fault) =>
    case DoConsume(r, receipt, claim, fault) => ConsumingShape(cfg, s, r, receipt, claim, fault);
    case DoAnchor(call) => CallOnlyMovesForward(s.checkpoint, call);
  }

  lemma {:induction false} RunExtends(cfg: Config, trace: seq<Store>, actions: seq<Action>, i: nat, j: nat)
    requires Run(cfg, trace, actions) && i <= j < |trace|
    ensures Extends(trace[i], trace[j])
    decreases j
  {
    if i < j {
      RunExtends(cfg, trace, actions, i, j - 1);
      assert StepAt(cfg, trace, actions, j - 1);
      ApplyExtends(cfg, trace[j - 1], actions[j - 1]);
    }
  }

  lemma {:induction false} FoundAuthStays(rows: seq<AuthRow>, more: seq<AuthRow>, id: string)
    requires rows <= more && FindAuth(rows, id).Some?
    ensures FindAuth(more, id) == FindAuth(rows, id)
  {
    if rows[0].requestId != id { FoundAuthStays(rows[1..], more[1..], id); }
  }

  lemma {:induction false} FoundConsStays(rows: seq<ConsRow>, more: seq<ConsRow>, id: string)
    requires rows <= more && FindCons(rows, id).Some?
    ensures FindCons(more, id) == FindCons(rows, id)
  {
    if rows[0].requestId != id { FoundConsStays(rows[1..], more[1..], id); }
  }

  lemma AuthStays(cfg: Config, trace: seq<Store>, actions: seq<Action>, i: nat, j: nat, id: string)
    requires Run(cfg, trace, actions) && i <= j < |trace| && FindAuth(trace[i].auths, id).Some?
    ensures FindAuth(trace[j].auths, id) == FindAuth(trace[i].auths, id)
  {
    RunExtends(cfg, trace, actions, i, j);
    FoundAuthStays(trace[i].auths, trace[j].auths, id);
  }

  lemma ConsStays(cfg: Config, trace: seq<Store>, actions: seq<Action>, i: nat, j: nat, id: string)
    requires Run(cfg, trace, actions) && i <= j < |trace| && FindCons(trace[i].cons, id).Some?
    ensures FindCons(trace[j].cons, id) == FindCons(trace[i].cons, id)
  {
    RunExtends(cfg, trace, actions, i, j);
    FoundConsStays(trace[i].cons, trace[j].cons, id);
  }

  // ---------------------------------------------------------------- lost replies

  function Replayed(row: AuthRow): AuthReply { Authorization(AuthReceipt(row.body, row.signature, true)) }

  function ReplayedCons(row: ConsRow): ConsReply { Consumption(ConsReceipt(row.body, row.signature, true)) }

  // Once a request is recorded, every later attempt or lookup under its id answers with the
  // first receipt, body and signature, or refuses a different context. Nothing is added.
  lemma RecordedAuthorizationStands(cfg: Config, trace: seq<Store>, actions: seq<Action>, i: nat, j: nat,
                                    r: Request, x: Inputs)
    requires Run(cfg, trace, actions) && i <= j < |trace| && cfg.valid(r)
    requires FindAuth(trace[i].auths, r.id).Some?
    ensures var row := FindAuth(trace[i].auths, r.id).value;
      var answer := if row.envelope == r then Replayed(row) else RequestConflict;
      && Authorizing(cfg, trace[j], r, x, Undisturbed) == (trace[j], answer)
      && RecordedAuthorization(cfg, trace[j], r) == Some(answer)
  {
    AuthStays(cfg, trace, actions, i, j, r.id);
    EveryStoreIsSound(cfg, trace, actions, i);
    var row := FindAuth(trace[i].auths, r.id).value;
    var k :| 0 <= k < |trace[i].auths| && trace[i].auths[k] == row;
    assert AuthRowSound(cfg, trace[i].auths[k], k + 1);
  }

  lemma RecordedConsumptionStands(cfg: Config, trace: seq<Store>, actions: seq<Action>, i: nat, j: nat,
                                  r: Request, a: AuthReceipt, claim: string)
    requires Run(cfg, trace, actions) && i <= j < |trace| && cfg.valid(r)
    requires FindCons(trace[i].cons, r.id).Some? && Identity(claim)
    ensures var row := FindCons(trace[i].cons, r.id).value;
      && FindCons(trace[j].cons, r.id) == Some(row)
      && (Presented(cfg, trace[j], r, a).Some? ==>
            Consuming(cfg, trace[j], r, a, claim, Undisturbed)
              == (trace[j], if row.claim == claim then ReplayedCons(row) else ClaimConflict))
      && RecordedConsumption(cfg, trace[j], r)
           == Some(if row.requestDigest == r then ReplayedCons(row) else ContextConflict)
  {
    ConsStays(cfg, trace, actions, i, j, r.id);
  }

  // An authorization interrupted anywhere and asked for again, even with other evidence,
  // yields the very receipt the first call would have returned when its row was committed,
  // and a fresh evaluation when it was not.
  lemma RetryRecoversAuthorization(cfg: Config, s: Store, r: Request, x: Inputs, fault: Interrupt, y: Inputs)
    requires cfg.valid(r) && FindAuth(s.auths, r.id).None?
    ensures var t := Authorizing(cfg, s, r, x, fault).0;
      var (again, first) := (Authorizing(cfg, t, r, y, Undisturbed), Authorizing(cfg, s, r, x, Undisturbed).1);
      if fault == Undisturbed || fault == AfterCommit
      then again.0 == t && again.1 == Authorization(first.receipt.(replayed := true))
      else t == s && again == Authorizing(cfg, s, r, y, Undisturbed)
  {
    FindAuthExtends(s.auths, NewAuth(cfg, s, r, x), r.id);
  }

  lemma RetryRecoversConsumption(cfg: Config, s: Store, r: Request, a: AuthReceipt, claim: string, fault: Interrupt)
    requires Identity(claim) && Records(cfg, s, r, a, claim)
    ensures var t := Consuming(cfg, s, r, a, claim, fault).0;
      var first := Consuming(cfg, s, r, a, claim, Undisturbed).1;
      var again := Consuming(cfg, t, r, a, claim, Undisturbed);
      && first.Consumption?
      && if fault == Undisturbed || fault == AfterCommit
         then again.0 == t && again.1 == Consumption(first.receipt.(replayed := true))
         else t == s && again.1 == first
  {
    FindConsExtends(s.cons, NewCons(cfg, s, r, Presented(cfg, s, r, a).value, claim), r.id);
  }

  // ---------------------------------------------------------------- freshness

  // Who recorded a request: the step that added its row was its own authorization, and the
  // row remembers the checkpoint of that moment.
  lemma RecordedByItsOwnStep(cfg: Config, s: Store, a: Action, id: string)
    requires FindAuth(s.auths, id).None? && FindAuth(Apply(cfg, s, a).auths, id).Some?
    ensures a.DoAuthorize? && a.request.id == id
    ensures FindAuth(Apply(cfg, s, a).auths, id) == Some(NewAuth(cfg, s, a.request, a.inputs))
  {
    match a
    case DoAuthorize(r, x, fault) => FindAuthExtends(s.auths, NewAuth(cfg, s, r, x), id);
    case DoConsume(r, receipt, claim, fault) => ConsumingShape(cfg, s, r, receipt, claim, fault);
    case DoAnchor(_) =>
  }

  lemma ConsumedByItsOwnStep(cfg: Config, s: Store, a: Action, id: string)
    requires FindCons(s.cons, id).None? && FindCons(Apply(cfg, s, a).cons, id).Some?
    ensures Apply(cfg, s, a).checkpoint == s.checkpoint && Apply(cfg, s, a).auths == s.auths
    ensures FindCons(Apply(cfg, s, a).cons, id).value.body.checkpoint == s.checkpoint
  {
    match a
    case DoAuthorize(r, x, fault) =>
    case DoConsume(r, receipt, claim, fault) =>
      ConsumingShape(cfg, s, r, receipt, claim, fault);
      FindConsExtends(s.cons, NewCons(cfg, s, r, Presented(cfg, s, r, receipt).value, claim), id);
    case DoAnchor(_) =>
  }

  lemma SoundConsumption(cfg: Config, s: Store, id: string)
    requires Sound(cfg, s) && FindCons(s.cons, id).Some? && FindCons(s.cons, id).value.decision == Consumed
    ensures FindAuth(s.auths, id).Some?
    ensures var (c, a) := (FindCons(s.cons, id).value, FindAuth(s.auths, id).value);
      && c.body.checkpoint == a.body.checkpoint
      && a.body.checkpoint == Some(Bound(a.envelope))
  {
    var row := FindCons(s.cons, id).value;
    var k :| 0 <= k < |s.cons| && s.cons[k] == row;
    assert ConsRowSound(cfg, s.cons[k], k + 1, FindAuth(s.auths, id));
    var m :| 0 <= m < |s.auths| && s.auths[m] == FindAuth(s.auths, id).value;
    assert AuthRowSound(cfg, s.auths[m], m + 1);
  }

  lemma RecordRemembersCheckpoint(cfg: Config, trace: seq<Store>, actions: seq<Action>, i: nat, j: nat, id: string)
    requires Run(cfg, trace, actions) && i < j < |trace|
    requires FindAuth(trace[i].auths, id).None? && FindAuth(trace[i + 1].auths, id).Some?
    ensures FindAuth(trace[j].auths, id) == FindAuth(trace[i + 1].auths, id)
    ensures FindAuth(trace[j].auths, id).value.body.checkpoint == trace[i].checkpoint
  {
    assert StepAt(cfg, trace, actions, i);
    RecordedByItsOwnStep(cfg, trace[i], actions[i], id);
    AuthStays(cfg, trace, actions, i + 1, j, id);
  }

  lemma ConsumptionSeesCheckpoint(cfg: Config, trace: seq<Store>, actions: seq<Action>, j: nat, id: string)
    requires Run(cfg, trace, actions) && j < |actions|
    requires FindCons(trace[j].cons, id).None? && FindCons(trace[j + 1].cons, id).Some?
    requires FindCons(trace[j + 1].cons, id).value.decision == Consumed
    ensures FindAuth(trace[j + 1].auths, id).Some?
    ensures var a := FindAuth(trace[j + 1].auths, id).value;
      && trace[j + 1].checkpoint == a.body.checkpoint
      && a.body.checkpoint == Some(Bound(a.envelope))
  {
    assert StepAt(cfg, trace, actions, j);
    ConsumedByItsOwnStep(cfg, trace[j], actions[j], id);
    EveryStoreIsSound(cfg, trace, actions, j + 1);
    SoundConsumption(cfg, trace[j + 1], id);
  }

  lemma EqualCheckpointsMeanNoChange(cfg: Config, trace: seq<Store>, actions: seq<Action>, i: nat, j: nat, m: nat)
    requires Run(cfg, trace, actions) && i <= m <= j < |trace|
    requires trace[i].checkpoint.Some? && trace[i].checkpoint == trace[j].checkpoint
    ensures trace[m].checkpoint == trace[i].checkpoint
  {
    RunExtends(cfg, trace, actions, i, m);
    RunExtends(cfg, trace, actions, m, j);
  }

  // CONSUMED at step j for a request authorized at step i: the checkpoint was the one the
  // binding names at every moment from the authorization to the consumption.
  lemma ConsumedMeansTrustUnchanged(cfg: Config, trace: seq<Store>, actions: seq<Action>, i: nat, j: nat, id: string)
    requires Run(cfg, trace, actions) && i < j < |actions|
    requires FindAuth(trace[i].auths, id).None? && FindAuth(trace[i + 1].auths, id).Some?
    requires FindCons(trace[j].cons, id).None? && FindCons(trace[j + 1].cons, id).Some?
    requires FindCons(trace[j + 1].cons, id).value.decision == Consumed
    ensures var r := FindAuth(trace[i + 1].auths, id).value.envelope;
      forall m :: i <= m <= j + 1 ==> trace[m].checkpoint == Some(Bound(r))
  {
    RecordRemembersCheckpoint(cfg, trace, actions, i, j + 1, id);
    ConsumptionSeesCheckpoint(cfg, trace, actions, j, id);
    forall m | i <= m <= j + 1 ensures trace[m].checkpoint == trace[i].checkpoint {
      EqualCheckpointsMeanNoChange(cfg, trace, actions, i, j + 1, m);
    }
  }

  // The step that recorded a row, from the row alone.
  lemma {:induction false} FirstAuth(cfg: Config, trace: seq<Store>, actions: seq<Action>, n: nat, id: string)
    returns (i: nat)
    requires Run(cfg, trace, actions) && n < |trace| && FindAuth(trace[n].auths, id).Some?
    ensures i < n && FindAuth(trace[i].auths, id).None? && FindAuth(trace[i + 1].auths, id).Some?
  {
    if FindAuth(trace[n - 1].auths, id).None? { i := n - 1; } else { i := FirstAuth(cfg, trace, actions, n - 1, id); }
  }

  lemma {:induction false} FirstCons(cfg: Config, trace: seq<Store>, actions: seq<Action>, n: nat, id: string)
    returns (i: nat)
    requires Run(cfg, trace, actions) && n < |trace| && FindCons(trace[n].cons, id).Some?
    ensures i < n && FindCons(trace[i].cons, id).None? && FindCons(trace[i + 1].cons, id).Some?
  {
    if FindCons(trace[n - 1].cons, id).None? { i := n - 1; } else { i := FirstCons(cfg, trace, actions, n - 1, id); }
  }

  lemma AuthorizedBeforeConsumed(cfg: Config, trace: seq<Store>, actions: seq<Action>, i: nat, j: nat, id: string)
    requires Run(cfg, trace, actions) && i < |actions| && j < |actions|
    requires FindAuth(trace[i].auths, id).None? && FindAuth(trace[i + 1].auths, id).Some?
    requires FindCons(trace[j].cons, id).None? && FindCons(trace[j + 1].cons, id).Some?
    requires FindCons(trace[j + 1].cons, id).value.decision == Consumed
    ensures i < j
  {
    assert StepAt(cfg, trace, actions, j);
    ConsumedByItsOwnStep(cfg, trace[j], actions[j], id);
    EveryStoreIsSound(cfg, trace, actions, j + 1);
    SoundConsumption(cfg, trace[j + 1], id);
    if j <= i { AuthStays(cfg, trace, actions, j, i, id); }
  }

  // The window behind a CONSUMED row: recorded by steps i and j, and from before the one to
  // after the other the checkpoint never moved.
  ghost predicate Window(trace: seq<Store>, i: nat, j: nat, id: string, held: Checkpoint) {
    && i < j && j + 1 < |trace|
    && FindAuth(trace[i].auths, id).None? && FindAuth(trace[i + 1].auths, id).Some?
    && FindCons(trace[j].cons, id).None? && FindCons(trace[j + 1].cons, id).Some?
    && forall m :: i <= m <= j + 1 ==> trace[m].checkpoint == Some(held)
  }

  lemma WindowBetween(cfg: Config, trace: seq<Store>, actions: seq<Action>, i: nat, j: nat, id: string)
    requires Run(cfg, trace, actions) && i < |actions| && j < |actions|
    requires FindAuth(trace[i].auths, id).None? && FindAuth(trace[i + 1].auths, id).Some?
    requires FindCons(trace[j].cons, id).None? && FindCons(trace[j + 1].cons, id).Some?
    requires FindCons(trace[j + 1].cons, id).value.decision == Consumed
    ensures Window(trace, i, j, id, Bound(FindAuth(trace[i + 1].auths, id).value.envelope))
  {
    AuthorizedBeforeConsumed(cfg, trace, actions, i, j, id);
    ConsumedMeansTrustUnchanged(cfg, trace, actions, i, j, id);
  }

  lemma ConsumedHasAuth(cfg: Config, trace: seq<Store>, actions: seq<Action>, n: nat, id: string)
    requires Run(cfg, trace, actions) && n < |trace|
    requires FindCons(trace[n].cons, id).Some? && FindCons(trace[n].cons, id).value.decision == Consumed
    ensures FindAuth(trace[n].auths, id).Some?
  {
    EveryStoreIsSound(cfg, trace, actions, n);
    SoundConsumption(cfg, trace[n], id);
  }

  lemma ConsumedHasWindow(cfg: Config, trace: seq<Store>, actions: seq<Action>, n: nat, id: string)
    returns (i: nat, j: nat)
    requires Run(cfg, trace, actions) && n < |trace|
    requires FindCons(trace[n].cons, id).Some? && FindCons(trace[n].cons, id).value.decision == Consumed
    ensures j < n && FindAuth(trace[n].auths, id).Some?
    ensures Window(trace, i, j, id, Bound(FindAuth(trace[n].auths, id).value.envelope))
  {
    ConsumedHasAuth(cfg, trace, actions, n, id);
    i := FirstAuth(cfg, trace, actions, n, id);
    j := FirstCons(cfg, trace, actions, n, id);
    AuthStays(cfg, trace, actions, i + 1, n, id);
    ConsStays(cfg, trace, actions, j + 1, n, id);
    WindowBetween(cfg, trace, actions, i, j, id);
  }

  // Stores seen by somebody whose steps may also leave the store alone.
  ghost predicate Steps(cfg: Config, s: Store, t: Store) {
    t == s || exists a :: t == Apply(cfg, s, a)
  }

  ghost predicate StepsAt(cfg: Config, trace: seq<Store>, i: nat)
    requires 0 < i < |trace|
  {
    Steps(cfg, trace[i - 1], trace[i])
  }

  ghost predicate Watched(cfg: Config, trace: seq<Store>) {
    && |trace| > 0 && trace[0] == Store(None, [], [])
    && forall i :: 0 < i < |trace| ==> StepsAt(cfg, trace, i)
  }

  // A call interrupted at its start changes nothing.
  lemma StepIsAnAction(cfg: Config, s: Store, t: Store) returns (a: Action)
    requires Steps(cfg, s, t)
    ensures t == Apply(cfg, s, a)
  {
    if t == s {
      var r: Request := *;
      var x: Inputs := *;
      a := DoAuthorize(r, x, AtBegin);
    } else {
      a :| t == Apply(cfg, s, a);
    }
  }

  lemma {:induction false} WatchedIsARun(cfg: Config, trace: seq<Store>) returns (actions: seq<Action>)
    requires Watched(cfg, trace)
    ensures Run(cfg, trace, actions)
    decreases |trace|
  {
    if |trace| == 1 {
      actions := [];
    } else {
      var front := trace[..|trace| - 1];
      forall i | 0 < i < |front| ensures StepsAt(cfg, front, i) { assert StepsAt(cfg, trace, i); }
      var before := WatchedIsARun(cfg, front);
      assert StepsAt(cfg, trace, |trace| - 1);
      var last := StepIsAnAction(cfg, trace[|trace| - 2], trace[|trace| - 1]);
      actions := before + [last];
      forall i | 0 <= i < |actions| ensures StepAt(cfg, trace, actions, i) {
        if i < |before| { assert StepAt(cfg, front, before, i); }
      }
    }
  }

  lemma ConsumptionDecision(cfg: Config, trace: seq<Store>, actions: seq<Action>, j: nat, id: string)
    requires Run(cfg, trace, actions) && j < |actions|
    requires FindCons(trace[j].cons, id).None? && FindCons(trace[j + 1].cons, id).Some?
    requires FindAuth(trace[j].auths, id).Some? && FindAuth(trace[j].auths, id).value.body.decision == Authorized
    ensures FindCons(trace[j + 1].cons, id).value.decision == Consumed
      <==> trace[j].checkpoint == FindAuth(trace[j].auths, id).value.body.checkpoint
    ensures trace[j + 1].checkpoint == trace[j].checkpoint
  {
    assert StepAt(cfg, trace, actions, j);
    var (s, a) := (trace[j], actions[j]);
    ConsumedByItsOwnStep(cfg, s, a, id);
    if a.DoConsume? {
      ConsumingShape(cfg, s, a.request, a.receipt, a.claim, a.fault);
      FindConsExtends(s.cons, NewCons(cfg, s, a.request, Presented(cfg, s, a.request, a.receipt).value, a.claim), id);
    }
  }

  // And conversely: of an AUTHORIZED request recorded at step i, the consumption recorded
  // at step j is CONSUMED exactly when the checkpoint stood still from i to j.
  lemma ConsumedExactlyWhenUnchanged(cfg: Config, trace: seq<Store>, actions: seq<Action>, i: nat, j: nat, id: string)
    requires Run(cfg, trace, actions) && i < j < |actions|
    requires FindAuth(trace[i].auths, id).None? && FindAuth(trace[i + 1].auths, id).Some?
    requires FindAuth(trace[i + 1].auths, id).value.body.decision == Authorized
    requires FindCons(trace[j].cons, id).None? && FindCons(trace[j + 1].cons, id).Some?
    ensures FindCons(trace[j + 1].cons, id).value.decision == Consumed
      <==> forall m :: i <= m <= j + 1 ==> trace[m].checkpoint == trace[i].checkpoint
  {
    RecordRemembersCheckpoint(cfg, trace, actions, i, j, id);
    ConsumptionDecision(cfg, trace, actions, j, id);
    if FindCons(trace[j + 1].cons, id).value.decision == Consumed {
      ConsumedMeansTrustUnchanged(cfg, trace, actions, i, j, id);
    }
  }

  // ---------------------------------------------------------------- who was consumed

  // Over the whole run, two consumptions of one request, or under one claim, are the same
  // row.
  lemma OneConsumptionPerRequestAndClaim(cfg: Config, trace: seq<Store>, actions: seq<Action>, i: nat, j: nat,
                                         c: ConsRow, d: ConsRow)
    requires Run(cfg, trace, actions) && i <= j < |trace|
    requires c in trace[i].cons && d in trace[j].cons
    requires c.requestId == d.requestId || c.claim == d.claim
    ensures c == d
  {
    RunExtends(cfg, trace, actions, i, j);
    EveryStoreIsSound(cfg, trace, actions, j);
  }

  // AUTHORIZED exactly when the binding names this authority and the current checkpoint, and
  // the evidence is the admitted finding, for the bound claim, under the current snapshot.
  lemma AuthorizedExactly(cfg: Config, r: Request, x: Inputs, current: Option<Checkpoint>)
    ensures var b := r.binding;
      Evaluation(cfg, r, x, current) == (Authorized, CommitAuthorized)
      <==> && Names(cfg, b) && current == Some(Checkpoint(b.trustRevision, b.snapshotDigest))
           && x.finding.Some? && x.snapshot.Some? && SnapshotMatches(x.snapshot.value, b)
           && x.claim == b.claimDigest
           && Admitted(x.claim, b.priorDocument, b.evidenceScope, x.now, x.snapshot.value, cfg.roots, b.trustRevision)
           && Preflight(x.claim, b.priorDocument, b.evidenceScope, x.now, x.snapshot.value, cfg.roots,
                        b.trustRevision).value.2 == x.finding
  {
    var b := r.binding;
    if x.snapshot.Some? {
      var t := x.snapshot.value;
      if Admitted(x.claim, b.priorDocument, b.evidenceScope, x.now, t, cfg.roots, b.trustRevision) {
        AdmissionIsGrounded(x.claim, b.priorDocument, b.evidenceScope, x.now, t, cfg.roots, b.trustRevision);
      }
    }
  }

  // ---------------------------------------------------------------- reopening

  // A sound store passes the validation done on reopening exactly when every recorded
  // request names this authority.
  lemma ReopensExactly(cfg: Config, s: Store)
    requires Sound(cfg, s)
    ensures Reopens(cfg, s) <==> forall i :: 0 <= i < |s.auths| ==> Names(cfg, s.auths[i].envelope.binding)
  {
    forall i | 0 <= i < |s.auths|
      ensures AuthRowAccepted(cfg, s.auths[i]) <==> Names(cfg, s.auths[i].envelope.binding)
    {
      assert AuthRowSound(cfg, s.auths[i], i + 1);
    }
    if AuthsAccepted(cfg, s.auths) {
      forall i | 0 <= i < |s.cons|
        ensures ConsRowAccepted(cfg, s.cons[i], FindAuth(s.auths, s.cons[i].requestId))
      {
        ConsumptionAccepted(cfg, s, i);
      }
    }
  }

  lemma ConsumptionAccepted(cfg: Config, s: Store, i: nat)
    requires Sound(cfg, s) && i < |s.cons|
    ensures ConsRowAccepted(cfg, s.cons[i], FindAuth(s.auths, s.cons[i].requestId))
  {
    var auth := FindAuth(s.auths, s.cons[i].requestId);
    assert ConsRowSound(cfg, s.cons[i], i + 1, auth);
    var m :| 0 <= m < |s.auths| && s.auths[m] == auth.value;
    assert AuthRowSound(cfg, s.auths[m], m + 1);
  }

  predicate OwnRequests(cfg: Config, actions: seq<Action>) {
    forall i :: 0 <= i < |actions| && actions[i].DoAuthorize? ==> Names(cfg, actions[i].request.binding)
  }

  lemma {:induction false} OnlyOwnRows(cfg: Config, trace: seq<Store>, actions: seq<Action>, j: nat)
    requires Run(cfg, trace, actions) && j < |trace| && OwnRequests(cfg, actions)
    ensures forall k :: 0 <= k < |trace[j].auths| ==> Names(cfg, trace[j].auths[k].envelope.binding)
    decreases j
  {
    if j > 0 {
      OnlyOwnRows(cfg, trace, actions, j - 1);
      assert StepAt(cfg, trace, actions, j - 1);
      var (s, a) := (trace[j - 1], actions[j - 1]);
      if a.DoConsume? { ConsumingShape(cfg, s, a.request, a.receipt, a.claim, a.fault); }
    }
  }

  // Every store reached by calls that name this authority reopens, with both tables
  // numbered 1..n.
  lemma ReachableStoresReopen(cfg: Config, trace: seq<Store>, actions: seq<Action>, j: nat)
    requires Run(cfg, trace, actions) && j < |trace| && OwnRequests(cfg, actions)
    ensures Reopens(cfg, trace[j])
    ensures forall k :: 0 <= k < |trace[j].auths| ==> trace[j].auths[k].sequence == k + 1
    ensures forall k :: 0 <= k < |trace[j].cons| ==> trace[j].cons[k].sequence == k + 1
  {
    EveryStoreIsSound(cfg, trace, actions, j);
    OnlyOwnRows(cfg, trace, actions, j);
    ReopensExactly(cfg, trace[j]);
    NumberedFromOne(cfg, trace[j]);
  }

  lemma NumberedFromOne(cfg: Config, s: Store)
    requires Sound(cfg, s)
    ensures forall k :: 0 <= k < |s.auths| ==> s.auths[k].sequence == k + 1
    ensures forall k :: 0 <= k < |s.cons| ==> s.cons[k].sequence == k + 1
  {
    assert forall k :: 0 <= k < |s.auths| ==> AuthRowSound(cfg, s.auths[k], k + 1);
    assert forall k :: 0 <= k < |s.cons| ==>
      ConsRowSound(cfg, s.cons[k], k + 1, FindAuth(s.auths, s.cons[k].requestId));
  }

  // The failing family: a well-formed request naming another authority is recorded as
  // REJECTED, and the store never reopens again.
  lemma ForeignRequestBlocksReopening(cfg: Config, trace: seq<Store>, actions: seq<Action>, i: nat, j: nat)
    requires Run(cfg, trace, actions) && i < j < |trace|
    requires actions[i].DoAuthorize? && actions[i].fault == Undisturbed && cfg.valid(actions[i].request)
    requires !Names(cfg, actions[i].request.binding) && FindAuth(trace[i].auths, actions[i].request.id).None?
    ensures var (r, x) := (actions[i].request, actions[i].inputs);
      Authorizing(cfg, trace[i], r, x, Undisturbed).1.receipt.body.decision == Rejected
    ensures !Reopens(cfg, trace[j])
  {
    assert StepAt(cfg, trace, actions, i);
    RunExtends(cfg, trace, actions, i + 1, j);
    var row := NewAuth(cfg, trace[i], actions[i].request, actions[i].inputs);
    assert trace[j].auths[|trace[i].auths|] == row;
    EveryStoreIsSound(cfg, trace, actions, j);
    ForeignRowBlocks(cfg, trace[j], |trace[i].auths|);
  }

  lemma ForeignRowBlocks(cfg: Config, s: Store, k: nat)
    requires Sound(cfg, s) && k < |s.auths| && !Names(cfg, s.auths[k].envelope.binding)
    ensures !Reopens(cfg, s)
  {
    ReopensExactly(cfg, s);
  }
}
