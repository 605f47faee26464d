# convert-to-draft-action: the draft-gating decision

This project models the decision that the GitHub Action
`convert-to-draft-action` makes when a pull request event fires. The action
lists the repository's workflow runs for `pull_request` events. It keeps the
runs that reference the current pull request. If any kept run has a
conclusion other than `success`, it sends one `PATCH` with `{draft: true}`
to the pull request. Any error along the way ends in `setFailed(message)`.

Two modules carry the model, and a third holds `Option`:

- `WorkflowRuns` (`workflow_runs.dfy`) is the pure part. It has the workflow
  run record, the pull-request filter (`RunsForPullRequest`), the per-run
  predicate (`IsFailedOrRunning`), the `some` over kept runs
  (`AnyFailedOrRunning`) and their composition (`NeedsDraft`). Lemmas about
  them follow.
- `ConvertToDraft` (`convert_to_draft.dfy`) is `run()`. It is a method
  over abstract HTTP replies. It returns the requests issued, in order, and
  the `Outcome`: `Failed(message)` for `setFailed`, `AllPassed` for the
  no-write path, or `ConvertedToDraft`. Each `throw` inside the `try`
  becomes an early return with `Failed` carrying that error's message. That
  is what the single `catch` passes to `setFailed`, so no error escapes.
- `Wrappers` (`wrappers.dfy`) holds `Option`, which stands for `undefined`
  or `null`.

Inputs that the action reads from its environment are parameters:

- The pull request number, owner and repository from the Actions context
  are a `Context`.
- The listing reply is a `ListReply`. It can be a transport rejection, a
  non-ok status, an unreadable body, a missing `workflow_runs` field, or a
  list of runs.
- The PATCH reply is an `UpdateReply`. It can be a rejection, an error
  while reading the body text, a non-ok status, or success.

The action's code does not do any of the following:

- list runs by head SHA;
- follow pagination;
- expand jobs, or treat a `skipped` conclusion as neutral;
- exclude its own run;
- re-read the draft flag first;
- post a comment.

What the code does instead:

- It reads only the first page of `?event=pull_request` runs.
- Every non-`success` conclusion counts against the pull request. That
  includes `skipped` (`SkippedRunForcesDraft`).
- A run that is still in progress counts too. So the action's own run, if it
  is listed and references the pull request, forces the draft
  (`RunningRunForcesDraft`).

## Model

| member | source | states |
|---|---|---|
| `WorkflowRuns.References` | src/index.js:59 | A run references the pull request iff one of its `pull_requests` entries has that `number` (strict equality). |
| `WorkflowRuns.SomeNumberMatches` | src/index.js:59 | The front-to-back `some` over `pull_requests` holds iff some position holds an entry with that number. |
| `WorkflowRuns.RunsForPullRequest` | src/index.js:58-60 | The kept runs are exactly the listed runs with a `pull_requests` entry whose `number` equals the pull request number. The result is never longer than the listing. |
| `WorkflowRuns.RunsForPullRequestAppend` | src/index.js:58-60 | Filtering a concatenated listing is the concatenation of the filtered parts. This is order preservation. |
| `WorkflowRuns.RunsForPullRequestSingleton` | src/index.js:58-60 | A single run is kept exactly when it references the pull request. Together with the append lemma, this fixes the filtered list of every listing, order included. |
| `WorkflowRuns.NoReferencingRunKeepsNothing` | src/index.js:58-60 | If no run references the pull request, the filtered list is empty. |
| `WorkflowRuns.RunsForPullRequestIdempotent` | src/index.js:58-60 | Filtering the filtered list again changes nothing. |
| `WorkflowRuns.IsFailedOrRunning` | src/index.js:65 | The source predicate, "not `success`, or `null`", is the same as "the conclusion is not success". A `null` conclusion always satisfies it. |
| `WorkflowRuns.AnyFailedOrRunning` | src/index.js:64-66 | The `some` over the kept runs holds iff some kept run's conclusion is not `success`. |
| `WorkflowRuns.NeedsDraft` | src/index.js:58-68 | The verdict `hasFailedOrRunningWorkflows` holds iff some listed run references the pull request and has a conclusion other than `success`. The contract proves both directions. |
| `WorkflowRuns.FilteredVerdictIff` | src/index.js:58-66 | Filtering and then applying `some` to the filtered runs finds a non-success conclusion iff such a run references the pull request anywhere in the listing. |
| `WorkflowRuns.NonSuccessRunForcesDraft` | src/index.js:64-68 | One referencing run with any non-success conclusion forces the draft, whatever the other runs are. |
| `WorkflowRuns.SkippedRunForcesDraft` | src/index.js:64-68 | A completed run with conclusion `skipped` forces the draft. `skipped` is not neutral. |
| `WorkflowRuns.RunningRunForcesDraft` | src/index.js:64-68 | A referencing run with a `null` conclusion (still running) forces the draft. |
| `WorkflowRuns.AllReferencingSucceededNoDraft` | src/index.js:64-68 | If every referencing run succeeded, there is no draft. This includes listings with no referencing run at all. |
| `WorkflowRuns.UnrelatedRunsIgnored` | src/index.js:58-66 | Adding runs that do not reference the pull request, before or after, leaves the verdict unchanged. |
| `WorkflowRuns.StatusNotConsulted` | src/index.js:58-66 | Listings that differ only in the runs' `status` give filtered lists of the same length and the same verdict. |
| `ConvertToDraft.IsTruthy` | src/index.js:31 | Of the modelled values, the falsy pull request numbers are exactly `undefined` and `0`. Any other integer, negative ones included, passes the guard. |
| `ConvertToDraft.Run` | src/index.js:19-105 | Guards, in order, each failing with its own message: a falsy number fails with no request sent; a rejected, non-ok or unreadable listing, or one missing `workflow_runs`, fails having sent only the listing request. "All passed" sends only the listing request. Otherwise exactly one `PATCH {draft: true}` follows for that number. Its rejection, body-read error or non-ok status fails with the matching message; if none of these happens, the outcome is converted to draft. A PATCH is sent iff the verdict is draft. |

## Left out

- HTTP transport, URLs, authentication headers and JSON decoding are not modelled. Their results are the `ListReply` and `UpdateReply` inputs. The owner and repository appear only as fields of the requests.
- Reading the token and the Actions context is not modelled, because it is ambient platform input. The context becomes the `Context` parameter.
- `core.info` logging and the `JSON.stringify` of data, headers and bodies are not modelled. They are diagnostics and affect no decision.
- `async`/`await` is treated as straight-line sequential code.
- The pull request number is an integer or absent. The model does not cover other JavaScript values such as `NaN` or a string, which would be falsy or compare unequal.
- A run lacking `pull_requests`, or a `workflow_runs` value that is truthy but not an array, is not modelled. Either would throw a `TypeError` inside `filter`/`some`, and the catch would report it. GitHub's response schema always provides both as arrays.
- The exact text of errors raised by the runtime (fetch rejections, JSON and body-read failures) is not modelled. Each enters as the `message` of the corresponding reply.
