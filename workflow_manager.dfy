/**
 * The workflow registry: loading workflows from a parsed configuration
 * document, skipping malformed entries and actions one by one, and looking
 * workflows up by name to run them, list them or summarise their actions.
 *
 * The document is the JSON value the parser produced (a file that cannot be
 * opened or parsed arrives as the empty object).  `dump` is nlohmann's
 * `dump()`: `None` when it throws.
 */
module WorkflowManager {
  import opened Basics
  import opened Json
  import RE = RuleEngine
  import opened Workflows

  // ---------------------------------------------------------------------
  // What loading keeps of a document.

  /** The params string stored for an action object. */
  function ParamsString(act: Json, dump: Json -> Option<string>): (r: string)
    requires act.Object?
    ensures !Contains(act, "params") ==> r == ""
    ensures Contains(act, "params") && Get(act, "params").Str? ==> r == Get(act, "params").s
    ensures Contains(act, "params") && !Get(act, "params").Str? ==>
              r == (if dump(Get(act, "params")).Some? then dump(Get(act, "params")).value else "")
  {
    if !Contains(act, "params") then ""
    else
      var p := Get(act, "params");
      if p.Str? then p.s
      else match dump(p)
        case Some(text) => text
        case None => ""
  }

  /** The action an entry of `actions` yields, or `None` when it is skipped. */
  function ParseAction(act: Json, dump: Json -> Option<string>): (r: Option<ActionConfig>)
    ensures r.Some? <==> act.Object? && Contains(act, "type") && Get(act, "type").Str?
    ensures r.Some? ==> r.value == ActionConfig(Get(act, "type").s, ParamsString(act, dump))
  {
    if !act.Object? || !Contains(act, "type") then None
    else match AsString(Get(act, "type"))
      case None => None
      case Some(t) => Some(ActionConfig(t, ParamsString(act, dump)))
  }

  /** The actions kept of `items`, in order. */
  function ParseActions(items: seq<Json>, dump: Json -> Option<string>): (r: seq<ActionConfig>)
    ensures |r| <= |items|
    ensures forall k :: 0 <= k < |r| ==> exists j :: 0 <= j < |items| && ParseAction(items[j], dump) == Some(r[k])
  {
    if items == [] then []
    else
      var init := items[..|items| - 1];
      var last := ParseAction(items[|items| - 1], dump);
      var front := ParseActions(init, dump);
      assert forall k :: 0 <= k < |front| ==> exists j :: 0 <= j < |items| && ParseAction(items[j], dump) == Some(front[k]) by {
        forall k | 0 <= k < |front|
          ensures exists j :: 0 <= j < |items| && ParseAction(items[j], dump) == Some(front[k])
        {
          var j :| 0 <= j < |init| && ParseAction(init[j], dump) == Some(front[k]);
          assert items[j] == init[j];
        }
      }
      front + if last.Some? then [last.value] else []
  }

  /**
   * The workflow an entry of `workflows` yields, or `None` when it is
   * skipped; a missing rule is the null rule.
   */
  function ParseWorkflow(wf: Json, dump: Json -> Option<string>): (r: Option<Workflow>)
    ensures r.Some? <==> wf.Object? && Contains(wf, "name") && Contains(wf, "actions")
                          && Get(wf, "name").Str? && Get(wf, "actions").Array?
    ensures r.Some? ==> r.value.name == Get(wf, "name").s
                        && r.value.actions == ParseActions(Get(wf, "actions").elems, dump)
                        && r.value.rule == (if Contains(wf, "rule") then Get(wf, "rule") else Null)
  {
    if !wf.Object? || !Contains(wf, "name") || !Contains(wf, "actions") then None
    else match AsString(Get(wf, "name"))
      case None => None
      case Some(name) =>
        var acts := Get(wf, "actions");
        if !acts.Array? then None
        else Some(Workflow(name, ParseActions(acts.elems, dump), if Contains(wf, "rule") then Get(wf, "rule") else Null))
  }

  /** The workflows kept of `entries`, in order. */
  function ParseEntries(entries: seq<Json>, dump: Json -> Option<string>): seq<Workflow>
  {
    if entries == [] then []
    else
      var last := ParseWorkflow(entries[|entries| - 1], dump);
      ParseEntries(entries[..|entries| - 1], dump) + if last.Some? then [last.value] else []
  }

  /** Whether `doc` has the array `workflows` that loading reads. */
  predicate HasWorkflowsArray(doc: Json)
  {
    doc.Object? && Contains(doc, "workflows") && Get(doc, "workflows").Array?
  }

  /** The workflows `loadWorkflows` registers from `doc`. */
  function ParseWorkflows(doc: Json, dump: Json -> Option<string>): (r: seq<Workflow>)
    ensures !HasWorkflowsArray(doc) ==> r == []
    ensures HasWorkflowsArray(doc) ==> |r| <= |Get(doc, "workflows").elems|
  {
    if HasWorkflowsArray(doc) then
      EntriesAtMost(Get(doc, "workflows").elems, dump);
      ParseEntries(Get(doc, "workflows").elems, dump)
    else []
  }

  // ---------------------------------------------------------------------
  // Lookup by name.

  /** Index of the first workflow named `name`, if any. */
  function FirstNamed(ws: seq<Workflow>, name: string): (r: Option<nat>)
    ensures r.Some? ==> r.value < |ws| && ws[r.value].name == name
                        && forall j :: 0 <= j < r.value ==> ws[j].name != name
    ensures r.None? <==> forall j :: 0 <= j < |ws| ==> ws[j].name != name
  {
    if ws == [] then None
    else if ws[0].name == name then Some(0)
    else
      var r := FirstNamed(ws[1..], name);
      if r.Some? then Some(r.value + 1) else None
  }

  /** What a start request did: "Workflow not found", or the one run of the first match. */
  datatype Started = NotFound | Ran(run: Run)

  class Manager
  {
    var workflows: seq<Workflow>

    constructor()
      ensures workflows == []
    {
      workflows := [];
    }

    /** `loadWorkflows`: registers the workflows of `doc` after the ones already there. */
    method LoadWorkflows(doc: Json, dump: Json -> Option<string>)
      modifies this
      ensures workflows == old(workflows) + ParseWorkflows(doc, dump)
    {
      if !doc.Object? || !Contains(doc, "workflows") || !Get(doc, "workflows").Array? {
        return;
      }
      var entries := Get(doc, "workflows").elems;
      var i := 0;
      while i < |entries|
        invariant 0 <= i <= |entries|
        invariant workflows == old(workflows) + ParseEntries(entries[..i], dump)
      {
        var wf := entries[i];
        assert entries[..i + 1][..i] == entries[..i];
        if wf.Object? && Contains(wf, "name") && Contains(wf, "actions") {
          var name := AsString(Get(wf, "name"));
          if name.Some? && Get(wf, "actions").Array? {
            var actions := LoadActions(Get(wf, "actions").elems, dump);
            var rule := if Contains(wf, "rule") then Get(wf, "rule") else Null;
            workflows := workflows + [Workflow(name.value, actions, rule)];
          }
        }
        i := i + 1;
      }
      assert entries[..i] == entries;
    }

    /** `startWorkflow`: runs the first workflow named `name`, once. */
    method StartWorkflow(name: string, h: Host) returns (r: Started)
      ensures FirstNamed(workflows, name).None? ==> r == NotFound
      ensures FirstNamed(workflows, name).Some? ==>
                var w := workflows[FirstNamed(workflows, name).value];
                r == Ran(w.RunWith(false, RE.Evaluate(w.rule, h.env), DeclaredParams(w.actions), h))
    {
      var i := 0;
      while i < |workflows|
        invariant 0 <= i <= |workflows|
        invariant forall j :: 0 <= j < i ==> workflows[j].name != name
      {
        if workflows[i].name == name {
          var run := workflows[i].Execute(h);
          return Ran(run);
        }
        i := i + 1;
      }
      return NotFound;
    }

    /** `startWorkflowWithOverrides`: runs the first workflow named `name`, once, with `overrides`. */
    method StartWorkflowWithOverrides(name: string, overrides: seq<string>, h: Host) returns (r: Started)
      ensures FirstNamed(workflows, name).None? ==> r == NotFound
      ensures FirstNamed(workflows, name).Some? ==>
                var w := workflows[FirstNamed(workflows, name).value];
                r == Ran(w.RunWith(true, RE.Evaluate(w.rule, h.env), EffectiveParams(w.actions, overrides), h))
    {
      var i := 0;
      while i < |workflows|
        invariant 0 <= i <= |workflows|
        invariant forall j :: 0 <= j < i ==> workflows[j].name != name
      {
        if workflows[i].name == name {
          var run := workflows[i].ExecuteWithOverrides(overrides, h);
          return Ran(run);
        }
        i := i + 1;
      }
      return NotFound;
    }

    /** `listWorkflowNames`: one name per registered workflow, in registry order. */
    method ListWorkflowNames() returns (names: seq<string>)
      ensures |names| == |workflows|
      ensures forall k :: 0 <= k < |workflows| ==> names[k] == workflows[k].name
    {
      names := [];
      var i := 0;
      while i < |workflows|
        invariant 0 <= i <= |workflows|
        invariant |names| == i && forall k :: 0 <= k < i ==> names[k] == workflows[k].name
      {
        names := names + [workflows[i].name];
        i := i + 1;
      }
    }

    /** `getActionSummaries`: `type: params` for each action of the first workflow named `name`. */
    method GetActionSummaries(name: string) returns (sums: seq<string>)
      ensures FirstNamed(workflows, name).None? ==> sums == []
      ensures FirstNamed(workflows, name).Some? ==>
                var acts := workflows[FirstNamed(workflows, name).value].actions;
                |sums| == |acts| && forall k :: 0 <= k < |acts| ==> sums[k] == acts[k].actionType + ": " + acts[k].params
    {
      var i := 0;
      while i < |workflows|
        invariant 0 <= i <= |workflows|
        invariant forall j :: 0 <= j < i ==> workflows[j].name != name
      {
        if workflows[i].name == name {
          var acts := workflows[i].actions;
          sums := [];
          var k := 0;
          while k < |acts|
            invariant 0 <= k <= |acts|
            invariant |sums| == k && forall m :: 0 <= m < k ==> sums[m] == acts[m].actionType + ": " + acts[m].params
          {
            sums := sums + [acts[k].actionType + ": " + acts[k].params];
            k := k + 1;
          }
          return;
        }
        i := i + 1;
      }
      return [];
    }
  }

  /** The action loop of `loadWorkflows`: keeps the valid actions of `items`, in order. */
  method LoadActions(items: seq<Json>, dump: Json -> Option<string>) returns (actions: seq<ActionConfig>)
    ensures actions == ParseActions(items, dump)
  {
    actions := [];
    var i := 0;
    while i < |items|
      invariant 0 <= i <= |items|
      invariant actions == ParseActions(items[..i], dump)
    {
      var act := items[i];
      assert items[..i + 1][..i] == items[..i];
      if act.Object? && Contains(act, "type") {
        var t := AsString(Get(act, "type"));
        if t.Some? {
          var paramsStr := "";
          if Contains(act, "params") {
            var p := Get(act, "params");
            if p.Str? {
              paramsStr := p.s;
            } else {
              var text := dump(p);
              paramsStr := if text.Some? then text.value else "";
            }
          }
          actions := actions + [ActionConfig(t.value, paramsStr)];
        }
      }
      i := i + 1;
    }
    assert items[..i] == items;
  }

  // ---------------------------------------------------------------------
  // Properties of loading and lookup.

  /** Entries are kept in document order: the workflows of `a + b` are those of `a`, then those of `b`. */
  lemma {:induction false} EntriesAppend(a: seq<Json>, b: seq<Json>, dump: Json -> Option<string>)
    ensures ParseEntries(a + b, dump) == ParseEntries(a, dump) + ParseEntries(b, dump)
  {
    if b == [] {
      assert a + b == a;
    } else {
      assert (a + b)[..|a + b| - 1] == a + b[..|b| - 1];
      EntriesAppend(a, b[..|b| - 1], dump);
    }
  }

  /** Actions are kept in order: the actions of `a + b` are those of `a`, then those of `b`. */
  lemma {:induction false} ActionsAppend(a: seq<Json>, b: seq<Json>, dump: Json -> Option<string>)
    ensures ParseActions(a + b, dump) == ParseActions(a, dump) + ParseActions(b, dump)
  {
    if b == [] {
      assert a + b == a;
    } else {
      assert (a + b)[..|a + b| - 1] == a + b[..|b| - 1];
      ActionsAppend(a, b[..|b| - 1], dump);
    }
  }

  lemma One(e: Json, dump: Json -> Option<string>)
    ensures ParseEntries([e], dump) == (if ParseWorkflow(e, dump).Some? then [ParseWorkflow(e, dump).value] else [])
    ensures ParseActions([e], dump) == (if ParseAction(e, dump).Some? then [ParseAction(e, dump).value] else [])
  {
    assert [e][..0] == [];
  }

  /** A malformed entry is skipped on its own: the entries around it are kept as if it were absent. */
  lemma EntrySkipped(a: seq<Json>, e: Json, b: seq<Json>, dump: Json -> Option<string>)
    requires ParseWorkflow(e, dump).None?
    ensures ParseEntries(a + [e] + b, dump) == ParseEntries(a + b, dump)
  {
    EntriesAppend(a + [e], b, dump);
    EntriesAppend(a, [e], dump);
    EntriesAppend(a, b, dump);
    One(e, dump);
  }

  /** A malformed action is dropped on its own: the actions around it are kept, in order. */
  lemma ActionDropped(a: seq<Json>, x: Json, b: seq<Json>, dump: Json -> Option<string>)
    requires ParseAction(x, dump).None?
    ensures ParseActions(a + [x] + b, dump) == ParseActions(a, dump) + ParseActions(b, dump)
  {
    ActionsAppend(a + [x], b, dump);
    ActionsAppend(a, [x], dump);
    One(x, dump);
    var pa, pb := ParseActions(a, dump), ParseActions(b, dump);
    assert ParseActions(a + [x], dump) == pa + [];
    assert pa + [] == pa;
  }

  /** There are never more workflows than entries. */
  lemma {:induction false} EntriesAtMost(entries: seq<Json>, dump: Json -> Option<string>)
    ensures |ParseEntries(entries, dump)| <= |entries|
  {
    if entries != [] {
      EntriesAtMost(entries[..|entries| - 1], dump);
    }
  }

  /** When every entry is valid, every entry is registered. */
  lemma {:induction false} EntriesAllKept(entries: seq<Json>, dump: Json -> Option<string>)
    requires forall k :: 0 <= k < |entries| ==> ParseWorkflow(entries[k], dump).Some?
    ensures |ParseEntries(entries, dump)| == |entries|
  {
    if entries != [] {
      var n := |entries| - 1;
      assert forall k :: 0 <= k < n ==> entries[..n][k] == entries[k];
      EntriesAllKept(entries[..n], dump);
      EntriesLast(entries, dump);
      assert ParseWorkflow(entries[n], dump).Some?;
    }
  }

  lemma EntriesLast(entries: seq<Json>, dump: Json -> Option<string>)
    requires entries != []
    ensures var n := |entries| - 1;
      |ParseEntries(entries, dump)| == |ParseEntries(entries[..n], dump)| + if ParseWorkflow(entries[n], dump).Some? then 1 else 0
  {
  }

  /** Every registered workflow is what some valid entry yields. */
  lemma {:induction false} EntriesOrigin(entries: seq<Json>, dump: Json -> Option<string>, w: Workflow)
    requires w in ParseEntries(entries, dump)
    ensures exists k :: 0 <= k < |entries| && ParseWorkflow(entries[k], dump) == Some(w)
  {
    var n := |entries| - 1;
    var last := ParseWorkflow(entries[n], dump);
    if w in ParseEntries(entries[..n], dump) {
      EntriesOrigin(entries[..n], dump, w);
      var k :| 0 <= k < n && ParseWorkflow(entries[..n][k], dump) == Some(w);
      assert entries[..n][k] == entries[k];
    } else {
      assert last == Some(w);
    }
  }

  /** An entry that repeats an earlier entry's name is registered again: names are not made unique. */
  lemma DuplicatesKept(e: Json, dump: Json -> Option<string>)
    requires ParseWorkflow(e, dump).Some?
    ensures ParseEntries([e, e], dump) == [ParseWorkflow(e, dump).value, ParseWorkflow(e, dump).value]
  {
    assert [e, e] == [e] + [e];
    EntriesAppend([e], [e], dump);
    One(e, dump);
  }

  /** A workflow registered without a rule gets the null rule, which every environment satisfies. */
  lemma MissingRuleSatisfied(wf: Json, dump: Json -> Option<string>, env: RE.Env)
    requires ParseWorkflow(wf, dump).Some? && !Contains(wf, "rule")
    ensures RE.Evaluate(ParseWorkflow(wf, dump).value.rule, env) == RE.Value(true)
  {
    RE.DefaultRuleSatisfied(env);
  }

  /** A document without a `workflows` array, such as the empty object of a missing file, registers nothing. */
  lemma NoWorkflowsArray(doc: Json, dump: Json -> Option<string>)
    requires !HasWorkflowsArray(doc)
    ensures ParseWorkflows(doc, dump) == []
    ensures ParseWorkflows(Object([]), dump) == []
  {
  }

  /**
   * Loading more workflows never changes which workflow a name starts:
   * a workflow already registered under that name keeps winning.
   */
  lemma {:induction false} EarlierShadowsLater(ws: seq<Workflow>, more: seq<Workflow>, name: string)
    requires FirstNamed(ws, name).Some?
    ensures FirstNamed(ws + more, name) == FirstNamed(ws, name)
  {
    var k := FirstNamed(ws, name).value;
    assert (ws + more)[k] == ws[k];
    assert forall j :: 0 <= j < k ==> (ws + more)[j] == ws[j];
  }
}
