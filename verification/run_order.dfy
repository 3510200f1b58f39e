/**
 * Ordering the kept runs newest first by `createdAt`, as the platform-side
 * comparator (later timestamp first) with a stable sort does: runs with the
 * same timestamp keep their fetch order.
 */
module RunOrder {
  import opened Runs
  import opened RunFilter

  /** Creation timestamps never increase along `s`. */
  predicate NewestFirst(s: seq<Run>) {
    forall i, j :: 0 <= i < j < |s| ==> s[i].createdAt >= s[j].createdAt
  }

  /** The runs of `s` created at instant `t`, in their order in `s`. */
  function CreatedAt(s: seq<Run>, t: int): seq<Run> {
    if s == [] then []
    else if s[0].createdAt == t then [s[0]] + CreatedAt(s[1..], t)
    else CreatedAt(s[1..], t)
  }

  /** Places `x` in front of the first run that is not newer than it. */
  function Insert(x: Run, s: seq<Run>): (r: seq<Run>)
    ensures multiset(r) == multiset(s) + multiset{x}
  {
    if s == [] || s[0].createdAt <= x.createdAt then [x] + s
    else
      assert s == [s[0]] + s[1..];
      [s[0]] + Insert(x, s[1..])
  }

  /** Every run of `Insert(x, s)` is `x` or a run of `s`, so a bound on both bounds the result. */
  lemma {:induction false} InsertBounded(x: Run, s: seq<Run>, k: int)
    requires x.createdAt <= k
    requires forall i :: 0 <= i < |s| ==> s[i].createdAt <= k
    ensures forall i :: 0 <= i < |Insert(x, s)| ==> Insert(x, s)[i].createdAt <= k
  {
    if s != [] && s[0].createdAt > x.createdAt {
      InsertBounded(x, s[1..], k);
    }
  }

  /** Inserting into a newest-first list keeps it newest first. */
  lemma {:induction false} InsertNewestFirst(x: Run, s: seq<Run>)
    requires NewestFirst(s)
    ensures NewestFirst(Insert(x, s))
  {
    if s != [] && s[0].createdAt > x.createdAt {
      InsertNewestFirst(x, s[1..]);
      InsertBounded(x, s[1..], s[0].createdAt);
    }
  }

  /** Stable insertion sort, newest first. */
  function SortNewestFirst(s: seq<Run>): (r: seq<Run>)
    ensures multiset(r) == multiset(s)
    ensures NewestFirst(r)
  {
    if s == [] then []
    else
      assert s == [s[0]] + s[1..];
      var r := SortNewestFirst(s[1..]);
      InsertNewestFirst(s[0], r);
      Insert(s[0], r)
  }

  lemma {:induction false} CreatedAtConcat(a: seq<Run>, b: seq<Run>, t: int)
    ensures CreatedAt(a + b, t) == CreatedAt(a, t) + CreatedAt(b, t)
  {
    if a == [] {
      assert a + b == b;
    } else {
      var ab := a + b;
      assert ab[0] == a[0] && ab[1..] == a[1..] + b;
      CreatedAtConcat(a[1..], b, t);
    }
  }

  lemma CreatedAtCons(y: Run, s: seq<Run>, t: int)
    ensures CreatedAt([y] + s, t) == (if y.createdAt == t then [y] else []) + CreatedAt(s, t)
  {
    assert ([y] + s)[0] == y && ([y] + s)[1..] == s;
  }

  /** Inserting `x` puts it before every run with the same timestamp: ties keep `x` first. */
  lemma {:induction false} InsertStable(x: Run, s: seq<Run>, t: int)
    ensures CreatedAt(Insert(x, s), t) == CreatedAt([x] + s, t)
  {
    if s != [] && s[0].createdAt > x.createdAt {
      var rest := Insert(x, s[1..]);
      InsertStable(x, s[1..], t);
      CreatedAtCons(s[0], rest, t);
      CreatedAtCons(x, s[1..], t);
      CreatedAtCons(x, s, t);
      CreatedAtCons(s[0], s[1..], t);
      assert [s[0]] + s[1..] == s;
      // s[0] and x are never both created at t
    }
  }

  /** The sort is stable: for every timestamp, the runs created then appear in their original order. */
  lemma {:induction false} SortStable(s: seq<Run>, t: int)
    ensures CreatedAt(SortNewestFirst(s), t) == CreatedAt(s, t)
  {
    if s != [] {
      SortStable(s[1..], t);
      InsertStable(s[0], SortNewestFirst(s[1..]), t);
      CreatedAtConcat([s[0]], SortNewestFirst(s[1..]), t);
      CreatedAtConcat([s[0]], s[1..], t);
      assert [s[0]] + s[1..] == s;
    }
  }

  /**
   * Newest-first order together with stability determines the result: any
   * arrangement that is newest first and keeps every timestamp's runs in the
   * same order is the same sequence.
   */
  lemma {:induction false} StableOrderUnique(a: seq<Run>, b: seq<Run>)
    requires NewestFirst(a) && NewestFirst(b)
    requires forall t :: CreatedAt(a, t) == CreatedAt(b, t)
    ensures a == b
  {
    if a == [] || b == [] {
      if a != [] {
        CreatedAtHead(a);
      } else if b != [] {
        CreatedAtHead(b);
      }
    } else {
      var ka, kb := a[0].createdAt, b[0].createdAt;
      CreatedAtHead(a);
      CreatedAtHead(b);
      CreatedAtMember(b, ka, CreatedAt(b, ka)[0]);
      CreatedAtMember(a, kb, CreatedAt(a, kb)[0]);
      assert CreatedAt(a, ka) == CreatedAt(b, ka);
      assert CreatedAt(a, kb) == CreatedAt(b, kb);
      assert ka == kb;
      assert a[0] == b[0];
      forall t ensures CreatedAt(a[1..], t) == CreatedAt(b[1..], t) {
        assert CreatedAt(a, t) == CreatedAt(b, t);
        CreatedAtCons(a[0], a[1..], t);
        CreatedAtCons(b[0], b[1..], t);
        assert [a[0]] + a[1..] == a && [b[0]] + b[1..] == b;
        var h := if a[0].createdAt == t then [a[0]] else [];
        assert h + CreatedAt(a[1..], t) == h + CreatedAt(b[1..], t);
        assert (h + CreatedAt(a[1..], t))[|h|..] == CreatedAt(a[1..], t);
        assert (h + CreatedAt(b[1..], t))[|h|..] == CreatedAt(b[1..], t);
      }
      StableOrderUnique(a[1..], b[1..]);
      assert a == [a[0]] + a[1..] && b == [b[0]] + b[1..];
    }
  }

  lemma CreatedAtHead(s: seq<Run>)
    requires s != []
    ensures CreatedAt(s, s[0].createdAt) == [s[0]] + CreatedAt(s[1..], s[0].createdAt)
  {
  }

  /** A run picked out by `CreatedAt(s, t)` is a run of `s` with timestamp `t`. */
  lemma {:induction false} CreatedAtMember(s: seq<Run>, t: int, y: Run)
    requires y in CreatedAt(s, t)
    ensures y.createdAt == t
    ensures exists i :: 0 <= i < |s| && s[i] == y
  {
    if s[0] == y && s[0].createdAt == t {
    } else if s[0].createdAt == t {
      assert y in CreatedAt(s[1..], t);
      CreatedAtMember(s[1..], t, y);
      var i :| 0 <= i < |s[1..]| && s[1..][i] == y;
      assert s[i + 1] == y;
    } else {
      CreatedAtMember(s[1..], t, y);
      var i :| 0 <= i < |s[1..]| && s[1..][i] == y;
      assert s[i + 1] == y;
    }
  }

  /**
   * The sorted list is THE stable newest-first arrangement of its input: any
   * stable sort with the same comparator yields `SortNewestFirst(s)`.
   */
  lemma SortIsTheStableSort(s: seq<Run>, r: seq<Run>)
    requires NewestFirst(r)
    requires forall t :: CreatedAt(r, t) == CreatedAt(s, t)
    ensures r == SortNewestFirst(s)
  {
    forall t ensures CreatedAt(r, t) == CreatedAt(SortNewestFirst(s), t) {
      SortStable(s, t);
    }
    StableOrderUnique(r, SortNewestFirst(s));
  }

  /** The candidate list: the kept runs, newest first. */
  function Candidates(runs: seq<Run>, branch: string): (c: seq<Run>)
    ensures NewestFirst(c)
    ensures forall i :: 0 <= i < |c| ==> Kept(c[i], branch)
    ensures multiset(c) == multiset(FilterRuns(runs, branch))
  {
    var kept := FilterRuns(runs, branch);
    var c := SortNewestFirst(kept);
    assert forall i :: 0 <= i < |c| ==> Kept(c[i], branch) by {
      forall i | 0 <= i < |c| ensures Kept(c[i], branch) {
        assert c[i] in multiset(kept);
        var j :| 0 <= j < |kept| && kept[j] == c[i];
      }
    }
    c
  }

  lemma {:induction false} FilterCreatedAtCommute(runs: seq<Run>, branch: string, t: int)
    ensures CreatedAt(FilterRuns(runs, branch), t) == FilterRuns(CreatedAt(runs, t), branch)
  {
    if runs != [] {
      FilterCreatedAtCommute(runs[1..], branch, t);
    }
  }

  /** Candidates with equal timestamps appear in the order the platform returned them. */
  lemma TiesKeepFetchOrder(runs: seq<Run>, branch: string, t: int)
    ensures CreatedAt(Candidates(runs, branch), t) == FilterRuns(CreatedAt(runs, t), branch)
  {
    SortStable(FilterRuns(runs, branch), t);
    FilterCreatedAtCommute(runs, branch, t);
  }
}
