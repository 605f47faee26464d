/**
  The action's entry point `run()` (src/index.js:19-105): guard the pull
  request number, list the repository's pull-request workflow runs, decide,
  and convert the pull request to draft with one PATCH when some run that
  references it failed or is still running.

  The HTTP exchanges are inputs: `list` is what the GET of the workflow runs
  produced and `update` what the PATCH would produce. The method returns the
  requests it issued, in order, and how the action ended. Every `throw`
  inside the `try` becomes an early return with `Failed(message)`, which is
  what the single `catch` hands to `setFailed` (src/index.js:102-104).
 */
module ConvertToDraft {
  import opened Wrappers
  import opened WorkflowRuns

  /** Ambient invocation data read from the GitHub Actions context. */
  datatype Context = Context(prNumber: Option<int>, owner: string, repo: string)

  /**
    The decoded body of the run listing. `Unreadable` stands for `json()`
    rejecting (or any other error thrown while reading the body);
    `workflowRuns` is None when the field is missing or falsy.
   */
  datatype ListBody = Unreadable(message: string) | Decoded(workflowRuns: Option<seq<WorkflowRun>>)

  /** The listing fetch: rejected by the transport, or answered. */
  datatype ListReply =
    | ListRejected(message: string)
    | ListResponse(ok: bool, statusText: string, body: ListBody)

  /**
    The PATCH fetch: rejected by the transport, or answered. `textError` is
    set when reading the response text rejects.
   */
  datatype UpdateReply =
    | UpdateRejected(message: string)
    | UpdateResponse(ok: bool, statusText: string, textError: Option<string>)

  /** The requests the action sends. */
  datatype Request =
    | ListWorkflowRuns(owner: string, repo: string, event: string)
    | UpdatePullRequest(owner: string, repo: string, number: int, draft: bool)

  /**
    How `run()` ends: `setFailed(message)`, the "All workflows passed" path
    that writes nothing, or a successful conversion to draft.
   */
  datatype Outcome = Failed(message: string) | AllPassed | ConvertedToDraft

  const UndefinedNumberMessage: string := "Pull request number is undefined"
  const ListFailedPrefix: string := "Failed to fetch workflow runs: "
  const MissingRunsMessage: string := "workflow_runs is undefined"
  const UpdateFailedPrefix: string := "Failed to update pull request: "

  /**
    JavaScript truthiness of `prNumber`, the test in `!prNumber`
    (src/index.js:31): of the values the model admits, exactly `undefined`
    (or `null`) and `0` are falsy; every other integer, negative ones
    included, is truthy.
   */
  function IsTruthy(prNumber: Option<int>): (truthy: bool)
    ensures !truthy <==> prNumber in {None, Some(0)}
  {
    prNumber.Some? && prNumber.value != 0
  }

  /** The single listing request: first page of `?event=pull_request` runs. */
  function ListRequest(ctx: Context): (request: Request)
  {
    ListWorkflowRuns(ctx.owner, ctx.repo, "pull_request")
  }

  /** The single write: PATCH the pull request with body `{draft: true}`. */
  function DraftRequest(ctx: Context, number: int): (request: Request)
  {
    UpdatePullRequest(ctx.owner, ctx.repo, number, true)
  }

  /** The runs the listing delivered, when every listing guard passed. */
  predicate Listed(list: ListReply, runs: seq<WorkflowRun>)
  {
    list.ListResponse? && list.ok && list.body == Decoded(Some(runs))
  }

  method Run(ctx: Context, list: ListReply, update: UpdateReply)
    returns (requests: seq<Request>, outcome: Outcome)
    // Guard 1: a falsy pull request number fails before any request.
    ensures !IsTruthy(ctx.prNumber) ==>
              requests == [] && outcome == Failed(UndefinedNumberMessage)
    // Otherwise the listing is always the first request, and at most one PATCH follows it.
    ensures IsTruthy(ctx.prNumber) ==>
              requests == [ListRequest(ctx)] ||
              requests == [ListRequest(ctx), DraftRequest(ctx, ctx.prNumber.value)]
    // Guards 2 and 3: a failed listing aborts with its message and writes nothing.
    ensures IsTruthy(ctx.prNumber) && list.ListRejected? ==>
              requests == [ListRequest(ctx)] && outcome == Failed(list.message)
    ensures IsTruthy(ctx.prNumber) && list.ListResponse? && !list.ok ==>
              requests == [ListRequest(ctx)] && outcome == Failed(ListFailedPrefix + list.statusText)
    ensures IsTruthy(ctx.prNumber) && list.ListResponse? && list.ok && list.body.Unreadable? ==>
              requests == [ListRequest(ctx)] && outcome == Failed(list.body.message)
    ensures IsTruthy(ctx.prNumber) && list.ListResponse? && list.ok && list.body == Decoded(None) ==>
              requests == [ListRequest(ctx)] && outcome == Failed(MissingRunsMessage)
    // The decision: no failed or running referencing run means no write.
    ensures forall runs :: IsTruthy(ctx.prNumber) && Listed(list, runs) && !NeedsDraft(runs, ctx.prNumber.value) ==>
              requests == [ListRequest(ctx)] && outcome == AllPassed
    // Otherwise exactly one PATCH {draft: true}, whose failure is reported.
    ensures forall runs :: IsTruthy(ctx.prNumber) && Listed(list, runs) && NeedsDraft(runs, ctx.prNumber.value) ==>
              && requests == [ListRequest(ctx), DraftRequest(ctx, ctx.prNumber.value)]
              && outcome == (match update
                             case UpdateRejected(message) => Failed(message)
                             case UpdateResponse(ok, statusText, textError) =>
                               if textError.Some? then Failed(textError.value)
                               else if !ok then Failed(UpdateFailedPrefix + statusText)
                               else ConvertedToDraft)
    // Summaries of the clauses above: a PATCH is sent exactly when the decision
    // asks for it, "All passed" writes nothing, and a conversion took one PATCH.
    ensures |requests| == 2 <==>
              IsTruthy(ctx.prNumber) && exists runs :: Listed(list, runs) && NeedsDraft(runs, ctx.prNumber.value)
    ensures outcome.AllPassed? ==> |requests| == 1
    ensures outcome.ConvertedToDraft? ==> |requests| == 2
  {
    requests := [];
    // src/index.js:31-33
    if !IsTruthy(ctx.prNumber) {
      return [], Failed(UndefinedNumberMessage);
    }
    var number := ctx.prNumber.value;

    // src/index.js:35-49
    requests := requests + [ListRequest(ctx)];
    if list.ListRejected? {
      return requests, Failed(list.message);
    }
    if !list.ok {
      return requests, Failed(ListFailedPrefix + list.statusText);
    }

    // src/index.js:51-56
    if list.body.Unreadable? {
      return requests, Failed(list.body.message);
    }
    if list.body.workflowRuns.None? {
      return requests, Failed(MissingRunsMessage);
    }
    var runs := list.body.workflowRuns.value;
    assert Listed(list, runs);

    // src/index.js:58-66
    var kept := RunsForPullRequest(runs, number);
    var hasFailedOrRunningWorkflows := AnyFailedOrRunning(kept);

    if !hasFailedOrRunningWorkflows {
      // src/index.js:99-100
      return requests, AllPassed;
    }

    // src/index.js:73-98
    requests := requests + [DraftRequest(ctx, number)];
    if update.UpdateRejected? {
      return requests, Failed(update.message);
    }
    if update.textError.Some? {
      return requests, Failed(update.textError.value);
    }
    if !update.ok {
      return requests, Failed(UpdateFailedPrefix + update.statusText);
    }
    outcome := ConvertedToDraft;
  }
}
