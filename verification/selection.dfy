/**
 * The selection loop over the candidate runs and the fallback to the
 * triggering commit.
 */
module Selection {
  import opened Wrappers
  import opened Runs

  /** The loop's acceptance test: a different commit from the triggering one, on the wanted branch. */
  predicate Qualifies(r: Run, triggeringSha: string, branch: string): (q: bool)
    ensures q ==> r.headSha != triggeringSha
    ensures q && branch != "" ==> r.headBranch == Some(branch)
    ensures branch == "" ==> (q <==> r.headSha != triggeringSha)
  {
    triggeringSha != r.headSha && OnBranch(r, branch)
  }

  /** Index of the first qualifying run, or `|runs|` when none qualifies. */
  function FirstQualifying(runs: seq<Run>, triggeringSha: string, branch: string): (k: nat)
    ensures k <= |runs|
    ensures forall j :: 0 <= j < k ==> !Qualifies(runs[j], triggeringSha, branch)
    ensures k < |runs| ==> Qualifies(runs[k], triggeringSha, branch)
  {
    if runs == [] then 0
    else if Qualifies(runs[0], triggeringSha, branch) then 0
    else 1 + FirstQualifying(runs[1..], triggeringSha, branch)
  }

  /** The `sha` output and whether it came from the fallback (which the action reports with a warning). */
  datatype Baseline = Baseline(sha: string, isFallback: bool)

  /**
   * What the loop and the fallback decide together: the first qualifying
   * run's commit, unless there is none or that commit is empty (falsy), in
   * which case the triggering commit on the fallback path.
   */
  function ChooseBaseline(runs: seq<Run>, triggeringSha: string, branch: string): (b: Baseline)
    ensures b.isFallback <==> b.sha == triggeringSha
    ensures !b.isFallback ==> b.sha != ""
    ensures !b.isFallback ==> exists i :: 0 <= i < |runs| && runs[i].headSha == b.sha && OnBranch(runs[i], branch)
  {
    var k := FirstQualifying(runs, triggeringSha, branch);
    if k < |runs| && runs[k].headSha != "" then Baseline(runs[k].headSha, false)
    else Baseline(triggeringSha, true)
  }

  /** The info line logged when a run is accepted; `verify` only switches its wording. */
  datatype Note = Note(saysVerified: bool, sha: string, url: string)

  /**
   * The loop over the candidates with its mutable `sha` and `break`, followed
   * by the fallback. The chosen commit is `ChooseBaseline`'s, which does not
   * depend on `verify`; `verify` (truthy when non-empty) only picks the
   * wording of the acceptance note.
   */
  method SelectSha(runs: seq<Run>, triggeringSha: string, branch: string, verify: string)
    returns (sha: string, isFallback: bool, note: Option<Note>)
    ensures Baseline(sha, isFallback) == ChooseBaseline(runs, triggeringSha, branch)
    ensures note.Some? <==> FirstQualifying(runs, triggeringSha, branch) < |runs|
    ensures note.Some? ==> note.value.saysVerified == (verify != "")
                           && note.value.sha == runs[FirstQualifying(runs, triggeringSha, branch)].headSha
                           && note.value.url == runs[FirstQualifying(runs, triggeringSha, branch)].htmlUrl
  {
    var found: Option<string> := None;
    note := None;
    if |runs| > 0 {
      var i := 0;
      while i < |runs|
        invariant 0 <= i <= |runs|
        invariant found == None && note == None
        invariant forall j :: 0 <= j < i ==> !Qualifies(runs[j], triggeringSha, branch)
      {
        var run := runs[i];
        if triggeringSha != run.headSha && (branch == "" || run.headBranch == Some(branch)) {
          note := Some(Note(verify != "", run.headSha, run.htmlUrl));
          found := Some(run.headSha);
          break;
        }
        i := i + 1;
      }
    }
    if found == None || found.value == "" {
      sha, isFallback := triggeringSha, true;
    } else {
      sha, isFallback := found.value, false;
    }
  }

  /** An accepted run is the earliest run in candidate order that differs from the triggering commit. */
  lemma EarliestDifferentRunChosen(runs: seq<Run>, triggeringSha: string, branch: string, i: nat)
    requires i < |runs| && Qualifies(runs[i], triggeringSha, branch) && runs[i].headSha != ""
    requires forall j :: 0 <= j < i ==> !Qualifies(runs[j], triggeringSha, branch)
    ensures ChooseBaseline(runs, triggeringSha, branch) == Baseline(runs[i].headSha, false)
  {
  }

  /** When every candidate on the branch carries the triggering commit or an empty one, the fallback is taken. */
  lemma FallbackWhenNoOtherCommit(runs: seq<Run>, triggeringSha: string, branch: string)
    requires forall j :: 0 <= j < |runs| && OnBranch(runs[j], branch) ==> runs[j].headSha in {triggeringSha, ""}
    ensures ChooseBaseline(runs, triggeringSha, branch) == Baseline(triggeringSha, true)
  {
  }

  /**
   * The loop stops at its first hit even when that run's commit is empty:
   * the fallback is then taken although a later run would have qualified.
   */
  lemma EmptyFirstHitFallsBack(runs: seq<Run>, triggeringSha: string, branch: string, i: nat, j: nat)
    requires i < j < |runs|
    requires Qualifies(runs[i], triggeringSha, branch) && runs[i].headSha == ""
    requires forall m :: 0 <= m < i ==> !Qualifies(runs[m], triggeringSha, branch)
    requires Qualifies(runs[j], triggeringSha, branch) && runs[j].headSha != ""
    ensures ChooseBaseline(runs, triggeringSha, branch) == Baseline(triggeringSha, true)
  {
  }

  lemma {:induction false} FirstQualifyingPrefix(runs: seq<Run>, triggeringSha: string, branch: string, rest: seq<Run>)
    requires FirstQualifying(runs, triggeringSha, branch) < |runs|
    ensures FirstQualifying(runs + rest, triggeringSha, branch) == FirstQualifying(runs, triggeringSha, branch)
  {
    if !Qualifies(runs[0], triggeringSha, branch) {
      assert (runs + rest)[1..] == runs[1..] + rest;
      FirstQualifyingPrefix(runs[1..], triggeringSha, branch, rest);
    }
  }

  lemma {:induction false} FirstQualifyingTake(runs: seq<Run>, triggeringSha: string, branch: string, n: nat)
    requires FirstQualifying(runs, triggeringSha, branch) < n <= |runs|
    ensures FirstQualifying(runs[..n], triggeringSha, branch) == FirstQualifying(runs, triggeringSha, branch)
  {
    var p := runs[..n];
    assert p[0] == runs[0];
    if !Qualifies(runs[0], triggeringSha, branch) {
      assert p[1..] == runs[1..][..n - 1];
      FirstQualifyingTake(runs[1..], triggeringSha, branch, n - 1);
    }
  }

  /** No run after the first hit is examined: replacing everything after it changes nothing. */
  lemma LaterRunsNotExamined(runs: seq<Run>, triggeringSha: string, branch: string, rest: seq<Run>)
    requires FirstQualifying(runs, triggeringSha, branch) < |runs|
    ensures var k := FirstQualifying(runs, triggeringSha, branch);
            ChooseBaseline(runs[..k + 1] + rest, triggeringSha, branch) == ChooseBaseline(runs, triggeringSha, branch)
  {
    var k := FirstQualifying(runs, triggeringSha, branch);
    var p := runs[..k + 1];
    FirstQualifyingTake(runs, triggeringSha, branch, k + 1);
    FirstQualifyingPrefix(p, triggeringSha, branch, rest);
    assert (p + rest)[k] == runs[k];
  }
}
