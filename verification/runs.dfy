/**
 * The records the action works on: the workflows and the workflow runs the
 * platform reports, and the two per-run tests that the run filter and the
 * selection loop both apply.
 */
module Runs {
  import opened Wrappers

  /** One entry of the repository's workflow list: its numeric id and display name. */
  datatype Workflow = Workflow(id: int, name: string)

  /**
   * One workflow run. `headBranch` and `conclusion` may be null on the
   * platform; `createdAt` is the creation timestamp already parsed to
   * milliseconds.
   */
  datatype Run = Run(
    headSha: string,
    headBranch: Option<string>,
    conclusion: Option<string>,
    createdAt: int,
    htmlUrl: string)

  /** The conclusion string of a run that succeeded. */
  const SuccessConclusion: string := "success"

  /** The run finished with the success conclusion. */
  predicate Succeeded(r: Run) {
    r.conclusion == Some(SuccessConclusion)
  }

  /**
   * The branch filter: an empty `branch` input filters nothing; otherwise the
   * run's head branch must be exactly that branch (a null head branch never is).
   */
  predicate OnBranch(r: Run, branch: string) {
    branch == "" || r.headBranch == Some(branch)
  }
}
