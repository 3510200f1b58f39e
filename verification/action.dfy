/**
 * One invocation of the action: resolve the workflow, fetch and order its
 * runs, select the baseline commit and report either the `sha` output or a
 * failure. The two platform calls are given as their results: the workflow
 * list, and a function from workflow id to that workflow's single page of runs.
 */
module Action {
  import opened Wrappers
  import opened Runs
  import opened WorkflowLookup
  import opened RunFilter
  import opened RunOrder
  import opened Selection

  /** The action's inputs; `verify` is the raw input string. */
  datatype Inputs = Inputs(branch: string, workflow: string, verify: string)

  /** Exactly one of: a failure message, or the `sha` output (with the fallback warning flag). */
  datatype Outcome = Failed(message: string) | Output(sha: string, isFallback: bool)

  /** The failure message for an unknown workflow name. */
  function NotFoundMessage(name: string): (m: string)
    ensures |m| == |name| + 35
    ensures m[|m| - |name| - 2] == '"' && m[|m| - 1] == '"'
    ensures m[|m| - |name| - 1..|m| - 1] == name
  {
    "No workflow exists with the name \"" + name + "\""
  }

  /** Different workflow names give different not-found messages. */
  lemma NotFoundMessageNamesWorkflow(a: string, b: string)
    requires NotFoundMessage(a) == NotFoundMessage(b)
    ensures a == b
  {
    var m := NotFoundMessage(a);
    assert a == m[|m| - |a| - 1..|m| - 1];
  }

  /** The outcome of one invocation, as a function of its inputs and the platform's answers. */
  function Invocation(inputs: Inputs, triggeringSha: string, workflows: Result<seq<Workflow>>,
                      listRuns: int -> Result<seq<Run>>): (o: Outcome)
    ensures o.Output? && !o.isFallback ==> o.sha != triggeringSha
    ensures workflows.Err? ==> o == Failed(workflows.message)
  {
    match workflows
    case Err(m) => Failed(m)
    case Ok(ws) =>
      match ResolveWorkflow(ws, inputs.workflow)
      case None => Failed(NotFoundMessage(inputs.workflow))
      case Some(id) =>
        match listRuns(id)
        case Err(m) => Failed(m)
        case Ok(fetched) =>
          var b := ChooseBaseline(Candidates(fetched, inputs.branch), triggeringSha, inputs.branch);
          Output(b.sha, b.isFallback)
  }

  /** The action's body: lookup, fetch, filter and sort, then the selection loop and fallback. */
  method RunAction(inputs: Inputs, triggeringSha: string, workflows: Result<seq<Workflow>>,
                   listRuns: int -> Result<seq<Run>>)
    returns (outcome: Outcome, note: Option<Note>)
    ensures outcome == Invocation(inputs, triggeringSha, workflows, listRuns)
    ensures note.Some? ==> outcome.Output? && note.value.saysVerified == (inputs.verify != "")
  {
    note := None;
    if workflows.Err? {
      outcome := Failed(workflows.message);
      return;
    }
    var workflowId := ResolveWorkflow(workflows.value, inputs.workflow);
    if workflowId.None? {
      outcome := Failed(NotFoundMessage(inputs.workflow));
      return;
    }
    var response := listRuns(workflowId.value);
    if response.Err? {
      outcome := Failed(response.message);
      return;
    }
    var runs := SortNewestFirst(FilterRuns(response.value, inputs.branch));
    var sha, isFallback;
    sha, isFallback, note := SelectSha(runs, triggeringSha, inputs.branch, inputs.verify);
    outcome := Output(sha, isFallback);
  }

  /**
   * A failed lookup ends the invocation with the not-found message before any
   * run is fetched: the outcome is the same whatever the run listing returns.
   */
  lemma UnknownWorkflowFailsWithoutFetch(inputs: Inputs, triggeringSha: string, ws: seq<Workflow>,
                                         listRuns: int -> Result<seq<Run>>, otherRuns: int -> Result<seq<Run>>)
    requires ResolveWorkflow(ws, inputs.workflow).None?
    ensures Invocation(inputs, triggeringSha, Ok(ws), listRuns) == Failed(NotFoundMessage(inputs.workflow))
    ensures Invocation(inputs, triggeringSha, Ok(ws), otherRuns) == Invocation(inputs, triggeringSha, Ok(ws), listRuns)
  {
  }

  /** After a successful lookup, an error thrown by the run listing fails the invocation with its message. */
  lemma RunListingErrorFails(inputs: Inputs, triggeringSha: string, ws: seq<Workflow>,
                             listRuns: int -> Result<seq<Run>>, id: int, m: string)
    requires ResolveWorkflow(ws, inputs.workflow) == Some(id) && listRuns(id) == Err(m)
    ensures Invocation(inputs, triggeringSha, Ok(ws), listRuns) == Failed(m)
  {
  }

  /** Runs are fetched for the first workflow carrying the name, when its id is non-zero. */
  lemma RunsOfFirstNamedWorkflow(inputs: Inputs, triggeringSha: string, ws: seq<Workflow>,
                                 listRuns: int -> Result<seq<Run>>, k: nat, fetched: seq<Run>)
    requires k < |ws| && ws[k].name == inputs.workflow && ws[k].id != 0
    requires forall j :: 0 <= j < k ==> ws[j].name != inputs.workflow
    requires listRuns(ws[k].id) == Ok(fetched)
    ensures var b := ChooseBaseline(Candidates(fetched, inputs.branch), triggeringSha, inputs.branch);
            Invocation(inputs, triggeringSha, Ok(ws), listRuns) == Output(b.sha, b.isFallback)
  {
    FirstMatchDecides(ws, inputs.workflow, k);
  }

  /**
   * The `verify` input never changes the outcome. `Invocation` does not read
   * it; what makes this a fact about the action is `RunAction`'s ensures
   * (its outcome is `Invocation`'s) and `SelectSha`'s first ensures (its
   * commit is `ChooseBaseline`'s, which has no `verify` parameter).
   */
  lemma VerifyDoesNotChangeOutcome(inputs: Inputs, verify: string, triggeringSha: string,
                                   workflows: Result<seq<Workflow>>, listRuns: int -> Result<seq<Run>>)
    ensures Invocation(inputs.(verify := verify), triggeringSha, workflows, listRuns)
         == Invocation(inputs, triggeringSha, workflows, listRuns)
  {
  }

  /**
   * A non-fallback output is the commit of a fetched run that succeeded, ran
   * on the wanted branch (when one is given) and differs from the triggering commit.
   */
  lemma OutputComesFromSuccessfulRun(inputs: Inputs, triggeringSha: string, ws: seq<Workflow>,
                                     listRuns: int -> Result<seq<Run>>, id: int, fetched: seq<Run>)
    requires ResolveWorkflow(ws, inputs.workflow) == Some(id) && listRuns(id) == Ok(fetched)
    requires Invocation(inputs, triggeringSha, Ok(ws), listRuns).Output?
    requires !Invocation(inputs, triggeringSha, Ok(ws), listRuns).isFallback
    ensures var sha := Invocation(inputs, triggeringSha, Ok(ws), listRuns).sha;
            sha != triggeringSha &&
            exists r :: r in fetched && r.headSha == sha && Succeeded(r) && OnBranch(r, inputs.branch)
  {
    var c := Candidates(fetched, inputs.branch);
    var sha := Invocation(inputs, triggeringSha, Ok(ws), listRuns).sha;
    var i :| 0 <= i < |c| && c[i].headSha == sha && OnBranch(c[i], inputs.branch);
    assert Kept(c[i], inputs.branch);
    assert c[i] in multiset(FilterRuns(fetched, inputs.branch));
    KeptCount(fetched, inputs.branch, c[i]);
  }
}
