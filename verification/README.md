# last-successful-build-action — a Dafny model of the baseline-commit selection

The action looks up a CI workflow by name and lists that workflow's runs. It
keeps the successful runs, optionally only those on one branch, and orders
them newest first. It then outputs the head commit (`sha`) of the newest run
whose commit is not the one that triggered the current invocation. When no
run qualifies, it outputs the triggering commit itself and logs a warning.

This project models that decision logic from `run()` in `src/main.ts`:

- `runs.dfy` (module `Runs`): the `Workflow` and `Run` records. A run's head
  branch and conclusion may be null (`Option`). `createdAt` is the already
  parsed timestamp in milliseconds.
- `workflow_lookup.dfy` (`WorkflowLookup`): first workflow whose name equals
  the input exactly; a missing match or a falsy id (0) is a failure.
- `run_filter.dfy` (`RunFilter`): keep successful runs; with a non-empty
  `branch` input, also require that head branch.
- `run_order.dfy` (`RunOrder`): the newest-first stable sort, as a stable
  insertion sort. It is proved sorted, a permutation and stable, and proved
  equal to ANY newest-first stable arrangement. So it agrees with the
  stable `Array.prototype.sort` of JavaScript whatever algorithm that uses.
- `selection.dfy` (`Selection`): the selection loop with its mutable `sha`
  and `break`, and the fallback, as the method `SelectSha`. It is proved
  equal to the pure first-qualifying-run function `ChooseBaseline`.
- `action.dfy` (`Action`): the whole invocation. `Invocation` is the pure
  outcome; `RunAction` is the step-by-step body proved to produce it. The
  outcome is `Failed(message)` or `Output(sha, isFallback)`. `isFallback`
  stands for the warning.
- `scenarios.dfy` (`Scenarios`): worked invocations on small inputs.

Inputs that the source reads from its environment are parameters: the
`branch`, `workflow` and `verify` inputs and the triggering commit. The two
platform calls are given as their results. The workflow list is a
`Result<seq<Workflow>>`. The run listing is a function from workflow id to
`Result<seq<Run>>`. An `Err` stands for an exception thrown by that call,
which the source turns into a failure with the error's message.

Details of the action's behaviour that the model keeps:

- `verify` only switches the wording of the acceptance note. The action
  never checks that the chosen commit exists in the local checkout, so with
  `verify` set the newest other commit is still chosen
  (`Scenarios.NewestOtherCommitChosen` holds for every `verify` value).
- "No branch filter" is the empty `branch` string. A null head branch never
  matches a non-empty filter.
- A workflow that is found but has id 0 is treated as not found.
- The loop stops at the first run whose commit differs from the triggering
  commit. If that commit is the empty string, the fallback is taken, even
  when a later run would have qualified (`Selection.EmptyFirstHitFallsBack`).

## Model

| member | source | states |
|---|---|---|
| `WorkflowLookup.FirstNamed` | src/main.ts:25 | The index is that of the first workflow with exactly the given name; none before it has that name; `|ws|` when none has it. |
| `WorkflowLookup.ResolveWorkflow` | src/main.ts:25-30 | A returned id is non-zero and belongs to a workflow with that name; with no such workflow the lookup fails. |
| `WorkflowLookup.FirstMatchDecides` | src/main.ts:25-30 | The first workflow with the name decides: its id when non-zero, failure when it is 0. |
| `WorkflowLookup.LaterDuplicatesIgnored` | src/main.ts:25 | Workflows appended after a match never change the lookup. |
| `RunFilter.Kept` | src/main.ts:39 | A kept run succeeded; with a non-empty `branch` input it ran on exactly that branch; with an empty one, success alone decides. |
| `RunFilter.FilterRuns` | src/main.ts:39 | Every kept run succeeded and passes the branch filter; no more runs than fetched. |
| `RunFilter.KeptCount` | src/main.ts:39 | Completeness: a passing run is kept exactly as often as it was fetched; any other run never. |
| `RunFilter.FilterConcat` | src/main.ts:39 | The filter distributes over concatenation, so kept runs stay in fetch order. |
| `RunFilter.NoBranchKeepsSuccessful` | src/main.ts:39 | With an empty `branch` input a run is kept iff it was fetched and succeeded, whatever its head branch (null included). |
| `RunFilter.BranchKeepsOnlyThatBranch` | src/main.ts:39 | With a non-empty `branch` input a run is kept iff it was fetched, succeeded and ran on that branch. |
| `RunOrder.Insert` | src/main.ts:40 | Inserting adds exactly the one run to the multiset. |
| `RunOrder.InsertNewestFirst` | src/main.ts:40 | Inserting into a newest-first list keeps it newest first. |
| `RunOrder.SortNewestFirst` | src/main.ts:40 | The sorted list is a permutation of its input, and its timestamps never increase. |
| `RunOrder.SortStable` | src/main.ts:40 | For every timestamp, the runs created at it appear in their original relative order. |
| `RunOrder.StableOrderUnique` | src/main.ts:40 | Two newest-first lists that agree on the order within every timestamp are equal. |
| `RunOrder.SortIsTheStableSort` | src/main.ts:40 | Any newest-first, stable arrangement of the input is exactly the sorted list. |
| `RunOrder.Candidates` | src/main.ts:38-40 | The candidate list is newest first; every candidate passes the filter; it is a permutation of the filtered runs. |
| `RunOrder.TiesKeepFetchOrder` | src/main.ts:38-40 | Candidates with equal timestamps appear in the order the platform returned them. |
| `Selection.Qualifies` | src/main.ts:54 | A qualifying run's commit differs from the triggering commit; with a non-empty `branch` input it ran on that branch; with an empty one, the commit test alone decides. |
| `Selection.FirstQualifying` | src/main.ts:48-54 | The index is that of the first run that differs from the triggering commit and passes the branch test; none earlier does. |
| `Selection.ChooseBaseline` | src/main.ts:47-71 | The fallback flag is set iff the output is the triggering commit. Otherwise the output is non-empty and is the commit of a run on the wanted branch. |
| `Selection.SelectSha` | src/main.ts:45-71 | The loop with `break` plus the fallback yields exactly `ChooseBaseline`'s commit and flag, independent of `verify`. A note is logged iff a run was accepted; it names that run's commit and URL, and its wording follows `verify`. |
| `Selection.EarliestDifferentRunChosen` | src/main.ts:48-62 | If run `i` is the earliest that differs from the triggering commit and its commit is non-empty, that commit is chosen without fallback. |
| `Selection.FallbackWhenNoOtherCommit` | src/main.ts:64-71 | If every run on the branch carries the triggering commit or an empty one, the triggering commit is output on the fallback path. |
| `Selection.EmptyFirstHitFallsBack` | src/main.ts:54-71 | If the first hit has an empty commit, the fallback is taken even when a later run qualifies. |
| `Selection.LaterRunsNotExamined` | src/main.ts:54-62 | Replacing every run after the first hit never changes the result. |
| `Action.NotFoundMessage` | src/main.ts:29 | The failure message ends with the workflow name between double quotes, so different names give different messages (`NotFoundMessageNamesWorkflow`). |
| `Action.NotFoundMessageNamesWorkflow` | src/main.ts:29 | Equal not-found messages come from equal workflow names. |
| `Action.Invocation` | src/main.ts:23-76 | An error thrown by the workflow listing becomes a failure with its message. A non-fallback output never equals the triggering commit. |
| `Action.RunListingErrorFails` | src/main.ts:35-76 | After a successful lookup, an error thrown by the run listing becomes a failure with its message. |
| `Action.RunAction` | src/main.ts:4-77 | The step-by-step body produces exactly `Invocation`'s outcome. A logged note implies a `sha` output, and the note's wording follows `verify`. |
| `Action.UnknownWorkflowFailsWithoutFetch` | src/main.ts:28-35 | A failed lookup fails with the not-found message, whatever the run listing would return. |
| `Action.RunsOfFirstNamedWorkflow` | src/main.ts:25-40 | The runs fetched for the first workflow with the name (non-zero id) decide the output, through filter, sort and selection. |
| `Action.VerifyDoesNotChangeOutcome` | src/main.ts:54-60 | Changing `verify` never changes the outcome; this holds because `RunAction` equals `Invocation` and `SelectSha`'s commit is `ChooseBaseline`'s, neither of which reads `verify`. |
| `Action.OutputComesFromSuccessfulRun` | src/main.ts:38-73 | A non-fallback output differs from the triggering commit. It is the commit of a fetched run that succeeded on the wanted branch. |
| `Scenarios.OnlyRunIsTriggeringCommit` | src/main.ts:47-73 | The only run carries the triggering commit, so the output is that commit on the fallback path. |
| `Scenarios.NewestOtherCommitChosen` | src/main.ts:38-73 | Of runs c1 (older) and c2 (newer), fetched oldest first, c2 is output for every `verify` value. |
| `Scenarios.UnknownWorkflowName` | src/main.ts:25-30 | An unknown workflow name fails with the not-found message. |
| `Scenarios.ZeroIdIsNotFound` | src/main.ts:25-30 | A first match with id 0 fails even when a later workflow of the same name has a non-zero id. |
| `Scenarios.OtherBranchFilteredOut` | src/main.ts:39-71 | A run on another branch is filtered out, so the fallback is taken. |
| `Scenarios.FailedRunSkipped` | src/main.ts:39-73 | A newer failed run is filtered out, and the older successful one is chosen. |

## Left out

- The two platform calls (`listRepoWorkflows`, `listWorkflowRuns`) are network I/O. Their results are parameters. The single page of at most 500 runs is a fetch detail.
- Reading the inputs and the environment, and splitting the repository into owner and repo, are configuration plumbing. The values are parameters.
- Logging is left out: `console.log`, `core.info` and the JSON dumps of responses. Two exceptions remain. The accepted-run note is kept because it is the only use of `verify`. The fallback warning is kept as the `isFallback` flag.
- Parsing `created_at` into a number is left out. Timestamps are integers, and an unparseable date (NaN) is not modelled.
- Exceptions other than those from the two platform calls are not modelled. These are the throw from splitting an unset repository name (src/main.ts:15), the throw from creating the API client with an unusable token (src/main.ts:13), and throws from logging.
- The triggering commit is assumed to be set. When it is unset it is `undefined` in the source: every run then differs from it, and the fallback outputs `undefined`. A `string` parameter cannot express that.
