/**
 * Resolving the `workflow` input to a workflow id: the first workflow whose
 * name equals the input exactly, rejected when there is none or when its id
 * is falsy (0).
 */
module WorkflowLookup {
  import opened Wrappers
  import opened Runs

  /** Index of the first workflow named `name`, or `|ws|` when no workflow has that name. */
  function FirstNamed(ws: seq<Workflow>, name: string): (k: nat)
    ensures k <= |ws|
    ensures forall j :: 0 <= j < k ==> ws[j].name != name
    ensures k < |ws| ==> ws[k].name == name
  {
    if ws == [] then 0
    else if ws[0].name == name then 0
    else 1 + FirstNamed(ws[1..], name)
  }

  /**
   * The workflow id used to fetch runs, or None when the lookup fails: no
   * workflow carries the name, or the first one that does has id 0.
   */
  function ResolveWorkflow(ws: seq<Workflow>, name: string): (id: Option<int>)
    ensures id.Some? ==> id.value != 0
    ensures id.Some? ==> exists k :: 0 <= k < |ws| && ws[k].name == name && ws[k].id == id.value
    ensures (forall k :: 0 <= k < |ws| ==> ws[k].name != name) ==> id.None?
  {
    var k := FirstNamed(ws, name);
    if k < |ws| && ws[k].id != 0 then Some(ws[k].id) else None
  }

  /**
   * Lookup is decided by the first workflow with the name: its id when
   * non-zero, failure when it is zero, whatever workflows with the same name
   * follow it.
   */
  lemma FirstMatchDecides(ws: seq<Workflow>, name: string, k: nat)
    requires k < |ws| && ws[k].name == name
    requires forall j :: 0 <= j < k ==> ws[j].name != name
    ensures ResolveWorkflow(ws, name) == if ws[k].id == 0 then None else Some(ws[k].id)
  {
  }

  /** Appending workflows after a match does not change the lookup: later duplicates are ignored. */
  lemma {:induction false} LaterDuplicatesIgnored(ws: seq<Workflow>, name: string, more: seq<Workflow>)
    requires exists k :: 0 <= k < |ws| && ws[k].name == name
    ensures ResolveWorkflow(ws + more, name) == ResolveWorkflow(ws, name)
  {
    FirstNamedPrefix(ws, name, more);
  }

  lemma {:induction false} FirstNamedPrefix(ws: seq<Workflow>, name: string, more: seq<Workflow>)
    requires exists k :: 0 <= k < |ws| && ws[k].name == name
    ensures FirstNamed(ws + more, name) == FirstNamed(ws, name) < |ws|
  {
    if ws[0].name != name {
      assert (ws + more)[1..] == ws[1..] + more;
      var k :| 0 <= k < |ws| && ws[k].name == name;
      assert ws[1..][k - 1].name == name;
      FirstNamedPrefix(ws[1..], name, more);
    }
  }
}
