/** CI evidence for one head SHA and the risk-based merge policy decided on it. */
module MergePolicy {
  import opened Prelude
  import opened StateStore

  // --- CI evidence -------------------------------------------------------------------------------

  /** A check run as GitHub lists it; absent text is empty. */
  datatype CheckRun = CheckRun(name: string, id: nat, status: string, conclusion: string)

  datatype CiStatus = PENDING | SUCCESS | FAILURE | MISSING

  datatype CiEvidence = CiEvidence(head: Sha, status: CiStatus, checks: map<string, CheckRun>,
      statuses: map<string, string>)

  function Latest(runs: seq<CheckRun>): map<string, CheckRun> {
    if runs == [] then map[]
    else
      var before, r := Latest(DropLast(runs)), Last(runs);
      if r.name !in before || r.id >= before[r.name].id then before[r.name := r] else before
  }

  predicate Completed(checks: map<string, CheckRun>, name: string) {
    name in checks && checks[name].status == "completed"
  }

  function Status(checks: map<string, CheckRun>, required: seq<string>): CiStatus {
    if checks == map[] then MISSING
    else if (exists n :: n in required && !Completed(checks, n))
         || (exists n :: n in checks && checks[n].status != "" && checks[n].status != "completed") then
      if (forall n :: n in required ==> n in checks) || (exists n :: n in checks && checks[n].status != "completed")
      then PENDING else MISSING
    else if forall n :: n in required ==> n in checks && checks[n].conclusion == "success" then SUCCESS
    else FAILURE
  }

  method Collect(head: Sha, runs: seq<CheckRun>, statuses: map<string, string>, required: seq<string>)
      returns (ev: CiEvidence)
    ensures ev == CiEvidence(head, Status(Latest(runs), required), Latest(runs), statuses)
  {
    var checks: map<string, CheckRun> := map[];
    for i := 0 to |runs|
      invariant checks == Latest(runs[..i])
    {
      assert DropLast(runs[..i + 1]) == runs[..i];
      if runs[i].name !in checks || runs[i].id >= checks[runs[i].name].id {
        checks := checks[runs[i].name := runs[i]];
      }
    }
    assert runs[..|runs|] == runs;
    ev := CiEvidence(head, Status(checks, required), checks, statuses);
  }

  /** Position of the newest run of a check, -1 when it has none. */
  function NewestIndex(runs: seq<CheckRun>, name: string): (i: int)
    ensures -1 <= i < |runs|
  {
    if runs == [] then -1
    else
      var i := NewestIndex(DropLast(runs), name);
      if Last(runs).name == name && (i < 0 || Last(runs).id >= runs[i].id) then |runs| - 1 else i
  }

  /** Of several runs of one check the one with the greatest id counts, on equal ids the one listed last. */
  lemma {:induction false} LatestIsNewest(runs: seq<CheckRun>, name: string)
    ensures var i := NewestIndex(runs, name);
            && (name in Latest(runs) <==> i >= 0)
            && (i < 0 ==> forall j :: 0 <= j < |runs| ==> runs[j].name != name)
            && (i >= 0 ==> runs[i].name == name && Latest(runs)[name] == runs[i])
            && (i >= 0 ==> forall j :: 0 <= j < |runs| && runs[j].name == name ==>
                  runs[j].id < runs[i].id || (runs[j].id == runs[i].id && j <= i))
  {
    if runs != [] {
      LatestIsNewest(DropLast(runs), name);
      assert forall j :: 0 <= j < |runs| - 1 ==> runs[j] == DropLast(runs)[j];
    }
  }

  lemma StatusGreen(checks: map<string, CheckRun>, required: seq<string>)
    ensures Status(checks, required) == SUCCESS <==>
            && checks != map[]
            && (forall n :: n in required ==>
                  n in checks && checks[n].status == "completed" && checks[n].conclusion == "success")
            && (forall n :: n in checks ==> checks[n].status in {"", "completed"})
  {
  }

  lemma NewestRuns(runs: seq<CheckRun>)
    ensures forall n :: n in Latest(runs) <==> NewestIndex(runs, n) >= 0
    ensures forall n :: n in Latest(runs) ==> Latest(runs)[n] == runs[NewestIndex(runs, n)] && Latest(runs)[n].name == n
    ensures forall i :: 0 <= i < |runs| ==> runs[i].name in Latest(runs)
  {
    forall n ensures n in Latest(runs) <==> NewestIndex(runs, n) >= 0
             ensures n in Latest(runs) ==> Latest(runs)[n] == runs[NewestIndex(runs, n)] && Latest(runs)[n].name == n
             ensures n !in Latest(runs) ==> forall i :: 0 <= i < |runs| ==> runs[i].name != n {
      LatestIsNewest(runs, n);
    }
  }

  /** The newest run of a required check completed with success. */
  predicate NewestGreen(runs: seq<CheckRun>, name: string) {
    var i := NewestIndex(runs, name);
    i >= 0 && runs[i].status == "completed" && runs[i].conclusion == "success"
  }

  predicate NewestStillRunning(runs: seq<CheckRun>, i: nat)
    requires i < |runs|
  {
    NewestIndex(runs, runs[i].name) == i && runs[i].status !in {"", "completed"}
  }

  /** CI counts as green exactly when some check reported, the newest run of every required check completed with
      success, and no newest run that reports a status at all is still going. */
  lemma GreenExactly(runs: seq<CheckRun>, required: seq<string>)
    ensures Status(Latest(runs), required) == SUCCESS <==>
            && runs != []
            && (forall n :: n in required ==> NewestGreen(runs, n))
            && (forall i :: 0 <= i < |runs| ==> !NewestStillRunning(runs, i))
  {
    var checks := Latest(runs);
    StatusGreen(checks, required);
    NewestRuns(runs);
    if runs != [] { assert runs[0].name in checks; }
    if forall i :: 0 <= i < |runs| ==> !NewestStillRunning(runs, i) {
      forall n | n in checks ensures checks[n].status in {"", "completed"} {
        assert !NewestStillRunning(runs, NewestIndex(runs, n));
      }
    }
  }

  function ContextState(ev: CiEvidence, context: string): string {
    if context in ev.checks then
      if ev.checks[context].conclusion != "" then ev.checks[context].conclusion
      else if ev.checks[context].status != "completed" then "pending" else ""
    else if context in ev.statuses && ev.statuses[context] != "" then ev.statuses[context] else "missing"
  }

  predicate ContextsGreen(ev: CiEvidence, contexts: seq<string>) {
    forall c :: c in contexts ==> ContextState(ev, c) == "success"
  }

  // --- the policy --------------------------------------------------------------------------------

  datatype Requirement =
    | CiGreen | RegressionGreen | ReviewerGreen | LeadApproval | LeadArchitectureReview | LostAllowance
    | GithubGatesGreen | Unknown(name: string)

  datatype Policy = Policy(low: seq<Requirement>, medium: seq<Requirement>, high: seq<Requirement>,
                           requiredChecks: seq<string>, reviewContext: string, maxRepairs: nat)

  function RequiredFor(policy: Policy, risk: Risk): seq<Requirement> {
    match risk case LOW => policy.low case MEDIUM => policy.medium case HIGH => policy.high
  }

  function ProtectedContexts(policy: Policy): seq<string> {
    policy.requiredChecks + [policy.reviewContext]
  }

  /** Gate 4: judged by its own runs unless all of them were skipped, else by the aggregate status. */
  predicate RegressionOk(ev: CiEvidence) {
    var judged := set n | n in ev.checks && StartsWith(n, "gate-4") && ev.checks[n].conclusion != "skipped";
    if judged != {} then forall n :: n in judged ==> ev.checks[n].conclusion == "success" else ev.status == SUCCESS
  }

  function ApprovalName(r: Requirement): string {
    match r
    case LeadApproval => "lead_approval"
    case LeadArchitectureReview => "lead_architecture_review"
    case _ => "lost_allowance"
  }

  predicate Holds(r: Requirement, row: IssueRow, ev: Option<CiEvidence>, policy: Policy, reviewSha: Option<Sha>) {
    match r
    case CiGreen => ev.Some? && ev.value.status == SUCCESS
    case RegressionGreen => ev.Some? && RegressionOk(ev.value)
    case ReviewerGreen =>
      var sha := if reviewSha.Some? then reviewSha else if row.verdict.Some? then row.verdict.value.sha else None;
      row.verdict.Some? && row.verdict.value.kind == APPROVE && (sha.None? || ev.None? || sha.value == ev.value.head)
    case GithubGatesGreen => ev.Some? && ContextsGreen(ev.value, ProtectedContexts(policy))
    case Unknown(_) => false
    case _ => ApprovalName(r) in row.approvals
  }

  function Requirements(policy: Policy, risk: Risk, lostAllowance: bool, githubGates: bool): seq<Requirement> {
    RequiredFor(policy, risk)
    + (if lostAllowance then [LostAllowance] else [])
    + if githubGates then [GithubGatesGreen] else []
  }

  datatype MergeDecision = MergeDecision(ok: bool, satisfied: seq<Requirement>, missing: seq<Requirement>)

  method Decide(row: IssueRow, ev: Option<CiEvidence>, policy: Policy, reviewSha: Option<Sha>, lostAllowance: bool,
      githubGates: bool)
    returns (d: MergeDecision)
    ensures d.ok == Approved(row, ev, policy, reviewSha, lostAllowance, githubGates)
    ensures forall r :: r in Requirements(policy, row.risk, lostAllowance, githubGates) <==>
              r in d.satisfied || r in d.missing
    ensures forall r :: r in d.satisfied ==> Holds(r, row, ev, policy, reviewSha)
    ensures forall r :: r in d.missing ==> !Holds(r, row, ev, policy, reviewSha)
  {
    var todo := Requirements(policy, row.risk, lostAllowance, githubGates);
    var satisfied: seq<Requirement>, missing: seq<Requirement> := [], [];
    for i := 0 to |todo|
      invariant forall r :: r in todo[..i] <==> r in satisfied || r in missing
      invariant forall r :: r in satisfied ==> Holds(r, row, ev, policy, reviewSha)
      invariant forall r :: r in missing ==> !Holds(r, row, ev, policy, reviewSha)
    {
      assert todo[..i + 1] == todo[..i] + [todo[i]];
      if Holds(todo[i], row, ev, policy, reviewSha) {
        satisfied := satisfied + [todo[i]];
      } else {
        missing := missing + [todo[i]];
      }
    }
    assert todo[..|todo|] == todo;
    assert missing != [] ==> missing[0] in missing;
    d := MergeDecision(missing == [], satisfied, missing);
  }

  predicate Approved(row: IssueRow, ev: Option<CiEvidence>, policy: Policy, reviewSha: Option<Sha>, lostAllowance: bool,
      githubGates: bool) {
    forall r :: r in Requirements(policy, row.risk, lostAllowance, githubGates) ==> Holds(r, row, ev, policy, reviewSha)
  }

  /** What an approved merge means: with the GitHub gates demanded every protected context is green on the
      evidence's own SHA; a bound verdict approves that SHA and no other; a LOST allowance was recorded; and no
      requirement the policy does not know can ever be waved through. */
  lemma ApprovalMeans(row: IssueRow, ev: CiEvidence, policy: Policy, lostAllowance: bool)
    requires row.verdict.Some? ==> row.verdict.value.sha.Some?
    requires Approved(row, Some(ev), policy,
        if row.verdict.Some? then row.verdict.value.sha else None, lostAllowance, true)
    ensures ContextsGreen(ev, ProtectedContexts(policy))
    ensures ReviewerGreen in RequiredFor(policy, row.risk) ==> row.verdict == Some(Verdict(APPROVE, Some(ev.head)))
    ensures CiGreen in RequiredFor(policy, row.risk) ==> ev.status == SUCCESS
    ensures lostAllowance ==> "lost_allowance" in row.approvals
    ensures forall name :: Unknown(name) !in RequiredFor(policy, row.risk)
  {
    var all := Requirements(policy, row.risk, lostAllowance, true);
    assert GithubGatesGreen in all;
    assert forall r :: r in RequiredFor(policy, row.risk) ==> r in all;
    assert lostAllowance ==> LostAllowance in all;
    forall name ensures Unknown(name) !in RequiredFor(policy, row.risk) {
      assert !Holds(Unknown(name), row, Some(ev), policy, if row.verdict.Some? then row.verdict.value.sha else None);
    }
  }
}
