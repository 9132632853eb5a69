// States of a governed operation and the legal transitions between them
// (tenir_governance/operations/registry.py), and the workers that take them.
module Lifecycle {
  datatype Worker = Worker(process: nat, thread: nat)

  datatype OpState =
    | Created | Held | Reserved | Dispatching | Confirmed | Failed | Unknown | Escalated

  predicate Legal(from: OpState, to: OpState) {
    match from
    case Created => to in {Reserved, Held, Failed}
    case Held => to in {Reserved, Failed, Escalated}
    case Reserved => to in {Dispatching, Failed}
    case Dispatching => to in {Confirmed, Failed, Unknown}
    case Escalated => to in {Held, Failed, Unknown}
    case Unknown => to in {Confirmed, Failed}
    case Confirmed => false
    case Failed => false
  }

  // The state after a compare-and-set that is refused when the move is not legal.
  function Moved(from: OpState, to: OpState): OpState {
    if Legal(from, to) then to else from
  }

  // The operation may already have had its external effect, or is past the point
  // where it could have one.
  predicate PastDispatch(s: OpState) {
    s in {Dispatching, Unknown, Confirmed, Failed}
  }

  // DISPATCHING is entered at most once: nothing past it leads back to a state that
  // could dispatch. Stated over whole paths of legal moves.
  ghost predicate LegalPath(path: seq<OpState>) {
    forall i :: 0 < i < |path| ==> path[i - 1] == path[i] || Legal(path[i - 1], path[i])
  }

  lemma {:induction false} NoSecondDispatch(path: seq<OpState>, i: nat, j: nat)
    requires LegalPath(path)
    requires i <= j < |path|
    requires PastDispatch(path[i])
    ensures PastDispatch(path[j])
    ensures path[j] == Dispatching ==> forall m :: i <= m <= j ==> path[m] == Dispatching
  {
    if i < j {
      NoSecondDispatch(path, i, j - 1);
    }
  }
}
