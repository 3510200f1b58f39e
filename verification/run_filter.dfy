/**
 * The run filter: keep the runs that succeeded and, when the `branch` input
 * is non-empty, ran on that branch; everything else about the list (order,
 * repetitions) is left as fetched.
 */
module RunFilter {
  import opened Wrappers
  import opened Runs

  /** The filter's test for one run. */
  predicate Kept(r: Run, branch: string): (k: bool)
    ensures k ==> r.conclusion == Some("success")
    ensures k && branch != "" ==> r.headBranch == Some(branch)
    ensures branch == "" ==> (k <==> r.conclusion == Some("success"))
  {
    OnBranch(r, branch) && Succeeded(r)
  }

  /**
   * The kept runs in fetch order. Every kept run passes the test (soundness);
   * KeptCount below states completeness.
   */
  function FilterRuns(runs: seq<Run>, branch: string): (kept: seq<Run>)
    ensures |kept| <= |runs|
    ensures forall i :: 0 <= i < |kept| ==> Kept(kept[i], branch)
  {
    if runs == [] then []
    else
      if Kept(runs[0], branch) then [runs[0]] + FilterRuns(runs[1..], branch)
      else FilterRuns(runs[1..], branch)
  }

  /** Filtering a concatenation filters each part in place: the relative order of kept runs is the fetch order. */
  lemma {:induction false} FilterConcat(a: seq<Run>, b: seq<Run>, branch: string)
    ensures FilterRuns(a + b, branch) == FilterRuns(a, branch) + FilterRuns(b, branch)
  {
    if a == [] {
      assert a + b == b;
    } else {
      var ab := a + b;
      assert ab[0] == a[0] && ab[1..] == a[1..] + b;
      FilterConcat(a[1..], b, branch);
      assert FilterRuns(ab, branch) == (if Kept(a[0], branch) then [a[0]] else []) + FilterRuns(ab[1..], branch);
      assert FilterRuns(a, branch) == (if Kept(a[0], branch) then [a[0]] else []) + FilterRuns(a[1..], branch);
    }
  }

  /**
   * Completeness with multiplicity: a run passing the test appears in the
   * result exactly as often as it was fetched, any other run not at all.
   */
  lemma {:induction false} KeptCount(runs: seq<Run>, branch: string, r: Run)
    ensures multiset(FilterRuns(runs, branch))[r] == if Kept(r, branch) then multiset(runs)[r] else 0
  {
    if runs != [] {
      assert runs == [runs[0]] + runs[1..];
      KeptCount(runs[1..], branch, r);
    }
  }

  /** With an empty `branch` input exactly the successful runs are kept, whatever their head branch (null included). */
  lemma NoBranchKeepsSuccessful(runs: seq<Run>, r: Run)
    ensures r in FilterRuns(runs, "") <==> r in runs && r.conclusion == Some("success")
  {
    KeptCount(runs, "", r);
    assert r in FilterRuns(runs, "") <==> multiset(FilterRuns(runs, ""))[r] > 0;
  }

  /** With a non-empty `branch` input a run is kept exactly when it succeeded on that branch. */
  lemma BranchKeepsOnlyThatBranch(runs: seq<Run>, branch: string, r: Run)
    requires branch != ""
    ensures r in FilterRuns(runs, branch) <==> r in runs && r.conclusion == Some("success") && r.headBranch == Some(branch)
  {
    KeptCount(runs, branch, r);
    assert r in FilterRuns(runs, branch) <==> multiset(FilterRuns(runs, branch))[r] > 0;
  }
}
