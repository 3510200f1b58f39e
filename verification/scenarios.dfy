/** Worked invocations of the action on small inputs. */
module Scenarios {
  import opened Wrappers
  import opened Runs
  import opened Selection
  import opened Action
  import RunFilter
  import RunOrder

  function MainRun(sha: string, t: int): Run {
    Run(sha, Some("main"), Some("success"), t, "u")
  }

  /** One workflow, "CI", with id 7. */
  const CiWorkflows: seq<Workflow> := [Workflow(7, "CI")]

  /** The only run carries the triggering commit: fallback to it. */
  lemma OnlyRunIsTriggeringCommit()
    ensures Invocation(Inputs("main", "CI", ""), "c3", Ok(CiWorkflows), _ => Ok([MainRun("c3", 3)]))
         == Output("c3", true)
  {
  }

  /** Of two earlier runs the newest is chosen, whatever the fetch order and whatever `verify` says. */
  lemma NewestOtherCommitChosen(verify: string)
    ensures Invocation(Inputs("main", "CI", verify), "c3", Ok(CiWorkflows), _ => Ok([MainRun("c1", 1), MainRun("c2", 2)]))
         == Output("c2", false)
  {
    var fetched := [MainRun("c1", 1), MainRun("c2", 2)];
    RunsOfFirstNamedWorkflow(Inputs("main", "CI", verify), "c3", CiWorkflows, _ => Ok(fetched), 0, fetched);
    TwoRunsSortedNewestFirst();
    EarliestDifferentRunChosen([MainRun("c2", 2), MainRun("c1", 1)], "c3", "main", 0);
  }

  lemma TwoRunsSortedNewestFirst()
    ensures RunOrder.Candidates([MainRun("c1", 1), MainRun("c2", 2)], "main") == [MainRun("c2", 2), MainRun("c1", 1)]
  {
    var r1, r2 := MainRun("c1", 1), MainRun("c2", 2);
    TwoRunsKept(r1, r2);
    TwoRunsSorted(r1, r2);
  }

  lemma TwoRunsKept(r1: Run, r2: Run)
    requires r1 == MainRun("c1", 1) && r2 == MainRun("c2", 2)
    ensures RunFilter.FilterRuns([r1, r2], "main") == [r1, r2]
  {
    assert [r1, r2][1..] == [r2] && [r2][1..] == [];
    assert RunFilter.FilterRuns([r2], "main") == [r2];
  }

  lemma TwoRunsSorted(r1: Run, r2: Run)
    requires r1 == MainRun("c1", 1) && r2 == MainRun("c2", 2)
    ensures RunOrder.SortNewestFirst([r1, r2]) == [r2, r1]
  {
    assert [r1, r2][1..] == [r2] && [r2][1..] == [];
    assert RunOrder.SortNewestFirst([r2]) == [r2];
    assert RunOrder.Insert(r1, [r2]) == [r2] + RunOrder.Insert(r1, []);
  }

  /** An unknown workflow name fails with the not-found message. */
  lemma UnknownWorkflowName()
    ensures Invocation(Inputs("main", "Deploy", ""), "c3", Ok(CiWorkflows), _ => Ok([MainRun("c2", 2)]))
         == Failed("No workflow exists with the name \"Deploy\"")
  {
  }

  /** A workflow whose id is 0 counts as not found. */
  lemma ZeroIdIsNotFound()
    ensures Invocation(Inputs("", "CI", ""), "c3", Ok([Workflow(0, "CI"), Workflow(9, "CI")]), _ => Ok([MainRun("c2", 2)]))
         == Failed(NotFoundMessage("CI"))
  {
  }

  /** Runs on another branch are filtered out, leaving only the fallback. */
  lemma OtherBranchFilteredOut()
    ensures Invocation(Inputs("main", "CI", ""), "c3", Ok(CiWorkflows),
                       _ => Ok([Run("c9", Some("feature"), Some("success"), 5, "u")]))
         == Output("c3", true)
  {
  }

  /** Failed runs are filtered out even when they are the newest. */
  lemma FailedRunSkipped()
    ensures Invocation(Inputs("", "CI", ""), "c3", Ok(CiWorkflows),
                       _ => Ok([Run("c5", None, Some("failure"), 5, "u"), Run("c4", None, Some("success"), 4, "u")]))
         == Output("c4", false)
  {
  }
}
