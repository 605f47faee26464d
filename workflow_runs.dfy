/**
  The pure part of the draft-gating decision: which workflow runs belong to
  the pull request (src/index.js:58-60) and whether any of them failed or is
  still running (src/index.js:64-66).
 */
module WorkflowRuns {
  import opened Wrappers

  /** The conclusion string GitHub reports for a run that passed. */
  const Success: string := "success"

  /** One entry of a run's `pull_requests` array; only `number` is read. */
  datatype PullRequestRef = PullRequestRef(number: int)

  /**
    One element of the `workflow_runs` array. `conclusion` is `null` (None)
    while the run has not completed. `status` is part of the record but the
    decision never reads it.
   */
  datatype WorkflowRun = WorkflowRun(status: string, conclusion: Option<string>, pullRequests: seq<PullRequestRef>)

  /**
    The run lists pull request `number` among its `pull_requests` entries,
    compared by strict equality on `number` (src/index.js:59).
   */
  function References(run: WorkflowRun, number: int): (found: bool)
    ensures found <==> exists pr :: pr in run.pullRequests && pr.number == number
  {
    SomeNumberMatches(run.pullRequests, number)
  }

  /**
    Some entry of `pullRequests` has number `number`; the entries are scanned
    from the front and the scan stops at the first hit (src/index.js:59).
   */
  function SomeNumberMatches(pullRequests: seq<PullRequestRef>, number: int): (found: bool)
    ensures found <==> exists j :: 0 <= j < |pullRequests| && pullRequests[j].number == number
  {
    if pullRequests == [] then false
    else pullRequests[0].number == number || SomeNumberMatches(pullRequests[1..], number)
  }

  /**
    The runs of the listing that reference pull request `number`, in the
    order of the listing (src/index.js:58-60).
   */
  function RunsForPullRequest(runs: seq<WorkflowRun>, number: int): (kept: seq<WorkflowRun>)
    ensures |kept| <= |runs|
    ensures forall run :: run in kept <==> run in runs && References(run, number)
  {
    if runs == [] then []
    else if References(runs[0], number) then [runs[0]] + RunsForPullRequest(runs[1..], number)
    else RunsForPullRequest(runs[1..], number)
  }

  /**
    The per-run test of the verdict (src/index.js:65), kept with both of its
    disjuncts: the conclusion differs from success, or it is unset. The
    second disjunct adds nothing, so the test is just "the conclusion is not
    success" and an unset conclusion always passes it.
   */
  function IsFailedOrRunning(run: WorkflowRun): (failedOrRunning: bool)
    ensures failedOrRunning <==> run.conclusion != Some(Success)
    ensures run.conclusion.None? ==> failedOrRunning
  {
    run.conclusion != Some(Success) || run.conclusion == None
  }

  /**
    Some kept run passes the per-run test; the runs are scanned from the
    front and the scan stops at the first hit (src/index.js:64-66).
   */
  function AnyFailedOrRunning(runs: seq<WorkflowRun>): (some: bool)
    ensures some <==> exists i :: 0 <= i < |runs| && runs[i].conclusion != Some(Success)
  {
    if runs == [] then false
    else IsFailedOrRunning(runs[0]) || AnyFailedOrRunning(runs[1..])
  }

  /**
    The verdict, `hasFailedOrRunningWorkflows` (src/index.js:58-68): the
    per-run test applied to the filtered runs. The pull request is converted
    to draft exactly when some run that references it has a conclusion other
    than success (failed, cancelled, skipped, ... or still unset).
   */
  function NeedsDraft(runs: seq<WorkflowRun>, number: int): (draft: bool)
    ensures draft <==>
              exists i :: 0 <= i < |runs| && References(runs[i], number) && runs[i].conclusion != Some(Success)
  {
    FilteredVerdictIff(runs, number);
    AnyFailedOrRunning(RunsForPullRequest(runs, number))
  }

  /**
    Filtering and then scanning for a non-success conclusion finds one
    exactly when the listing holds a referencing run with such a conclusion.
   */
  lemma FilteredVerdictIff(runs: seq<WorkflowRun>, number: int)
    ensures AnyFailedOrRunning(RunsForPullRequest(runs, number)) <==>
              exists i :: 0 <= i < |runs| && References(runs[i], number) && runs[i].conclusion != Some(Success)
  {
  }

  /** Filtering a concatenation filters each part and keeps them in order. */
  lemma {:induction false} RunsForPullRequestAppend(a: seq<WorkflowRun>, b: seq<WorkflowRun>, number: int)
    ensures RunsForPullRequest(a + b, number) == RunsForPullRequest(a, number) + RunsForPullRequest(b, number)
  {
    if a == [] {
      assert a + b == b;
    } else {
      assert (a + b)[0] == a[0];
      assert (a + b)[1..] == a[1..] + b;
      RunsForPullRequestAppend(a[1..], b, number);
    }
  }

  /**
    A single run is kept alone when it references the pull request and is
    dropped otherwise. With RunsForPullRequestAppend this fixes the filter's
    result on every listing, order included.
   */
  lemma RunsForPullRequestSingleton(run: WorkflowRun, number: int)
    ensures RunsForPullRequest([run], number) == (if References(run, number) then [run] else [])
  {
  }

  /** A listing in which no run references the pull request filters to nothing. */
  lemma {:induction false} NoReferencingRunKeepsNothing(runs: seq<WorkflowRun>, number: int)
    requires forall i :: 0 <= i < |runs| ==> !References(runs[i], number)
    ensures RunsForPullRequest(runs, number) == []
  {
    if runs != [] {
      assert !References(runs[0], number);
      NoReferencingRunKeepsNothing(runs[1..], number);
    }
  }

  /** Filtering twice is filtering once. */
  lemma {:induction false} RunsForPullRequestIdempotent(runs: seq<WorkflowRun>, number: int)
    ensures RunsForPullRequest(RunsForPullRequest(runs, number), number) == RunsForPullRequest(runs, number)
  {
    if runs != [] {
      RunsForPullRequestIdempotent(runs[1..], number);
      if References(runs[0], number) {
        var rest := RunsForPullRequest(runs[1..], number);
        assert ([runs[0]] + rest)[0] == runs[0];
        assert ([runs[0]] + rest)[1..] == rest;
      }
    }
  }

  /**
    One referencing run whose conclusion is not success is enough, whatever
    its status and whatever the other runs say: `failure`, `cancelled`,
    `skipped` and an unset (`null`) conclusion all count alike.
   */
  lemma NonSuccessRunForcesDraft(runs: seq<WorkflowRun>, i: nat, number: int)
    requires i < |runs|
    requires References(runs[i], number)
    requires runs[i].conclusion != Some(Success)
    ensures NeedsDraft(runs, number)
  {
  }

  /**
    A completed run whose conclusion is `skipped` is not neutral: it forces
    the draft just as a failed run does. This is NonSuccessRunForcesDraft
    with the conclusion `skipped`, stated on its own.
   */
  lemma SkippedRunForcesDraft(runs: seq<WorkflowRun>, i: nat, number: int)
    requires i < |runs|
    requires References(runs[i], number)
    requires runs[i].status == "completed" && runs[i].conclusion == Some("skipped")
    ensures NeedsDraft(runs, number)
  {
  }

  /**
    A run that is still in progress (conclusion `null`) and references the
    pull request forces the draft. The listing can contain the very run that
    performs this check, so the check does not exclude itself. This is
    NonSuccessRunForcesDraft with an unset conclusion, stated on its own.
   */
  lemma RunningRunForcesDraft(runs: seq<WorkflowRun>, i: nat, number: int)
    requires i < |runs|
    requires References(runs[i], number)
    requires runs[i].conclusion == None
    ensures NeedsDraft(runs, number)
  {
  }

  /**
    When every run that references the pull request succeeded (in
    particular when no run references it, or the listing is empty), the
    pull request is not converted.
   */
  lemma AllReferencingSucceededNoDraft(runs: seq<WorkflowRun>, number: int)
    requires forall i :: 0 <= i < |runs| && References(runs[i], number) ==> runs[i].conclusion == Some(Success)
    ensures !NeedsDraft(runs, number)
  {
  }

  /** Runs that do not reference the pull request never influence the verdict. */
  lemma UnrelatedRunsIgnored(runs: seq<WorkflowRun>, other: seq<WorkflowRun>, number: int)
    requires forall i :: 0 <= i < |other| ==> !References(other[i], number)
    ensures NeedsDraft(runs + other, number) == NeedsDraft(runs, number)
    ensures NeedsDraft(other + runs, number) == NeedsDraft(runs, number)
  {
  }

  /**
    The `status` field is never consulted: two listings that differ only in
    the runs' statuses keep the same number of runs and give the same
    verdict.
   */
  lemma {:induction false} StatusNotConsulted(runs: seq<WorkflowRun>, relabelled: seq<WorkflowRun>, number: int)
    requires |runs| == |relabelled|
    requires forall i :: 0 <= i < |runs| ==> relabelled[i] == runs[i].(status := relabelled[i].status)
    ensures |RunsForPullRequest(runs, number)| == |RunsForPullRequest(relabelled, number)|
    ensures NeedsDraft(runs, number) == NeedsDraft(relabelled, number)
  {
    if runs != [] {
      StatusNotConsulted(runs[1..], relabelled[1..], number);
      assert relabelled[0].pullRequests == runs[0].pullRequests;
      assert References(runs[0], number) == References(relabelled[0], number);
    }
  }
}
