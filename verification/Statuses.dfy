/** Payment statuses and the transition map of packages/shared/src/index.ts. */
module Statuses {
  datatype Status = PENDING | PROCESSING | COMPLETED | FAILED | RETRYING

  function Targets(from: Status): set<Status> {
    match from
    case PENDING => {PROCESSING}
    case PROCESSING => {COMPLETED, FAILED, RETRYING}
    case RETRYING => {PROCESSING}
    case COMPLETED => {}
    case FAILED => {}
  }

  predicate CanTransition(from: Status, to: Status) {
    to in Targets(from)
  }

  predicate IsTerminal(s: Status) {
    s == COMPLETED || s == FAILED
  }

  /** Exactly the terminal statuses have no exit, nothing re-enters PENDING, and PROCESSING is the
      only way into the others. */
  lemma MapShape(s: Status)
    ensures IsTerminal(s) <==> forall t :: !CanTransition(s, t)
    ensures forall t :: CanTransition(t, s) ==> s != PENDING && (s == PROCESSING <==> t != PROCESSING)
  {
    assert CanTransition(PENDING, PROCESSING) && CanTransition(PROCESSING, FAILED)
        && CanTransition(RETRYING, PROCESSING);
  }
}
