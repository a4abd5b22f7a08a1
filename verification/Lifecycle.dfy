/** The Issue lifecycle: the transition table and the state groups the other components consult. */
module Lifecycle {
  datatype State =
    | QUEUED | CLAIMED | WORKING | PR_OPEN | CI | REVIEW | FIX_REQUIRED
    | BLOCKED | READY_FOR_OWNER | INTEGRATED | MERGED | DONE

  const AGENT_ACTIVE: set<State> := {WORKING, REVIEW}
  const RESOURCE_HOLDING: set<State> := {CLAIMED, WORKING, PR_OPEN, CI, REVIEW, FIX_REQUIRED, READY_FOR_OWNER, MERGED}
  const SATISFIES_DEPENDENCY: set<State> := {DONE, INTEGRATED}

  function Targets(src: State): set<State> {
    match src
    case QUEUED => {CLAIMED, BLOCKED}
    case CLAIMED => {WORKING, PR_OPEN, QUEUED, BLOCKED}
    case WORKING => {PR_OPEN, QUEUED, BLOCKED}
    case PR_OPEN => {CI, BLOCKED, INTEGRATED}
    case CI => {REVIEW, FIX_REQUIRED, BLOCKED, INTEGRATED}
    case REVIEW => {READY_FOR_OWNER, INTEGRATED, FIX_REQUIRED, BLOCKED, CI}
    case FIX_REQUIRED => {WORKING, BLOCKED}
    case READY_FOR_OWNER => {MERGED, CI, FIX_REQUIRED, BLOCKED, INTEGRATED}
    case INTEGRATED => {DONE, FIX_REQUIRED, BLOCKED}
    case MERGED => {DONE, BLOCKED, INTEGRATED}
    case BLOCKED => {QUEUED, PR_OPEN, FIX_REQUIRED, DONE, INTEGRATED}
    case DONE => {}
  }

  predicate Allowed(src: State, dst: State) {
    dst in Targets(src)
  }

  ghost predicate LegalPath(path: seq<State>) {
    forall i :: 0 <= i < |path| - 1 ==> Allowed(path[i], path[i + 1])
  }

  /** However an Issue wandered (repairs, requeues, re-validation), the three steps right before MERGED are always CI,
      REVIEW, READY_FOR_OWNER. Issues are first tracked as QUEUED, or as BLOCKED when a child leaves its ROOT's scope,
      and a rollup as PR_OPEN. */
  lemma MergedOnlyThroughTheGates(path: seq<State>, k: nat)
    requires LegalPath(path) && k < |path| && path[k] == MERGED
    requires path[0] in {QUEUED, BLOCKED, PR_OPEN}
    ensures k >= 3 && path[k - 3] == CI && path[k - 2] == REVIEW && path[k - 1] == READY_FOR_OWNER
  {
    assert k >= 1 && Allowed(path[k - 1], path[k - 1 + 1]);
    assert k >= 2 && Allowed(path[k - 2], path[k - 2 + 1]);
    assert k >= 3 && Allowed(path[k - 3], path[k - 3 + 1]);
  }
}
