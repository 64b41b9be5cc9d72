/**
 * A workflow: a name, an ordered list of actions and a rule.  Running it
 * first evaluates the rule; when that holds, each action is loaded from
 * `plugins/<type>.so` and run with its params, one after the other, a
 * failure being reported for its own action only.
 *
 * The host is an oracle: the rule environment, `dlopen`/`dlsym` for the
 * loader, and what each plugin's `execute` does with its params.  A run is
 * observed as its trace of events: the console lines, the load requests
 * and the plugin calls, in the order they happen.
 */
module Workflows {
  import opened Basics
  import opened Json
  import RE = RuleEngine
  import PL = PluginLoader

  /** `ActionConfig{type, params}`. */
  datatype ActionConfig = ActionConfig(actionType: string, params: string)

  /**
   * The host a workflow runs on.  `run(plugin, params)` is `None` when the
   * plugin's `execute` returns, `Some(what)` when it throws an exception
   * whose `what()` is the text.  Both oracles see only the plugin and its
   * params (or the path), not what earlier steps did to the host.
   */
  datatype Host = Host(env: RE.Env, probe: string -> PL.Probe, run: (string, string) -> Option<string>)

  datatype Event =
    | Starting(workflow: string, withOverrides: bool)   // "Starting workflow ..."
    | RuleNotSatisfied(workflow: string)
    | Executing(actionType: string, params: string)     // "  Executing action: ..."
    | LoadPlugin(path: string)                          // loader.load(path)
    | RunPlugin(plugin: string, params: string)         // plugin->execute(params)
    | ActionCompleted(actionType: string)
    | ActionFailed(actionType: string, what: string)
    | WorkflowCompleted(workflow: string)

  /** The path a step asks the loader for. */
  function PluginPath(actionType: string): string
  {
    "plugins/" + actionType + ".so"
  }

  /** What `loader.load` gives for the plugin of `actionType`. */
  function LoadResult(actionType: string, probe: string -> PL.Probe): Result<string>
  {
    PL.Outcome(PluginPath(actionType), PL.Candidates(PluginPath(actionType)), probe)
  }

  /** The loader as a function of the action type. */
  function Loader(probe: string -> PL.Probe): string -> Result<string>
  {
    actionType => LoadResult(actionType, probe)
  }

  /** The events of one step whose load gave `loaded`: announce, load, run, and report. */
  function StepEvents(actionType: string, params: string, loaded: Result<string>, run: (string, string) -> Option<string>): (r: seq<Event>)
    ensures |r| == (if loaded.Ok? then 4 else 3)
    ensures r[0] == Executing(actionType, params) && r[1] == LoadPlugin(PluginPath(actionType))
    ensures loaded.Ok? ==> r[2] == RunPlugin(loaded.value, params)
    ensures r[|r| - 1] == ActionCompleted(actionType) || r[|r| - 1].ActionFailed?
    ensures r[|r| - 1] == ActionCompleted(actionType) <==> loaded.Ok? && run(loaded.value, params).None?
  {
    [Executing(actionType, params), LoadPlugin(PluginPath(actionType))]
    + if loaded.Err? then [ActionFailed(actionType, loaded.error)]
      else [RunPlugin(loaded.value, params)]
           + match run(loaded.value, params)
             case None => [ActionCompleted(actionType)]
             case Some(what) => [ActionFailed(actionType, what)]
  }

  /**
   * The events of running `acts` in order, step `i` with params `ps[i]`,
   * where `load(t)` is what loading the plugin of type `t` gives.
   */
  function StepsEvents(acts: seq<ActionConfig>, ps: seq<string>, load: string -> Result<string>, run: (string, string) -> Option<string>): seq<Event>
    requires |ps| == |acts|
  {
    if acts == [] then []
    else
      var t := acts[|acts| - 1].actionType;
      StepsEvents(acts[..|acts| - 1], ps[..|ps| - 1], load, run) + StepEvents(t, ps[|ps| - 1], load(t), run)
  }

  lemma StepsEventsSnoc(acts: seq<ActionConfig>, ps: seq<string>, i: nat, load: string -> Result<string>, run: (string, string) -> Option<string>)
    requires |ps| == |acts| && i < |acts|
    ensures StepsEvents(acts[..i + 1], ps[..i + 1], load, run)
         == StepsEvents(acts[..i], ps[..i], load, run) + StepEvents(acts[i].actionType, ps[i], load(acts[i].actionType), run)
  {
    assert acts[..i + 1][..i] == acts[..i] && ps[..i + 1][..i] == ps[..i];
  }

  /** The params each action declares. */
  function DeclaredParams(acts: seq<ActionConfig>): seq<string>
  {
    seq(|acts|, i requires 0 <= i < |acts| => acts[i].params)
  }

  /** The params `executeWithOverrides` passes: a non-empty override wins. */
  function EffectiveParams(acts: seq<ActionConfig>, overrides: seq<string>): (r: seq<string>)
    ensures |r| == |acts|
    ensures forall i :: 0 <= i < |acts| ==> r[i] == acts[i].params || (i < |overrides| && r[i] == overrides[i])
    ensures forall i :: 0 <= i < |acts| && r[i] == "" ==> acts[i].params == ""
  {
    seq(|acts|, i requires 0 <= i < |acts| =>
      if i < |overrides| && overrides[i] != "" then overrides[i] else acts[i].params)
  }

  /** How the rule check ends a run: the trace, and the rule exception that escaped it, if any. */
  datatype Run = Run(events: seq<Event>, escaped: Option<RE.RuleError>)

  datatype Workflow = Workflow(name: string, actions: seq<ActionConfig>, rule: Json)
  {
    /** A run whose rule check gave `verdict` and which passes `ps[i]` to step `i`. */
    function RunWith(withOverrides: bool, verdict: RE.Outcome, ps: seq<string>, h: Host): (r: Run)
      requires |ps| == |actions|
      ensures |r.events| >= 1 && r.events[0] == Starting(name, withOverrides)
      ensures r.escaped.Some? <==> verdict.Raised?
      ensures verdict.Raised? ==> r.escaped == Some(verdict.e) && |r.events| == 1
    {
      var start := [Starting(name, withOverrides)];
      match verdict
      case Raised(e) => Run(start, Some(e))
      case Value(b) =>
        if !b then Run(start + [RuleNotSatisfied(name)], None)
        else Run(start + StepsEvents(actions, ps, Loader(h.probe), h.run) + [WorkflowCompleted(name)], None)
    }

    /** `Workflow::execute`. */
    method Execute(h: Host) returns (r: Run)
      ensures r == RunWith(false, RE.Evaluate(rule, h.env), DeclaredParams(actions), h)
    {
      var events := [Starting(name, false)];
      var ok := RE.Evaluate(rule, h.env);
      if ok.Raised? {
        return Run(events, Some(ok.e));
      }
      if !ok.b {
        return Run(events + [RuleNotSatisfied(name)], None);
      }
      var steps := ExecuteSteps(actions, h);
      return Run(events + steps + [WorkflowCompleted(name)], None);
    }

    /** `Workflow::executeWithOverrides`. */
    method ExecuteWithOverrides(overrides: seq<string>, h: Host) returns (r: Run)
      ensures r == RunWith(true, RE.Evaluate(rule, h.env), EffectiveParams(actions, overrides), h)
    {
      var events := [Starting(name, true)];
      var ok := RE.Evaluate(rule, h.env);
      if ok.Raised? {
        return Run(events, Some(ok.e));
      }
      if !ok.b {
        return Run(events + [RuleNotSatisfied(name)], None);
      }
      var steps := ExecuteStepsWithOverrides(actions, overrides, h);
      return Run(events + steps + [WorkflowCompleted(name)], None);
    }
  }

  /** The action loop of `execute`: each action with its declared params. */
  method ExecuteSteps(actions: seq<ActionConfig>, h: Host) returns (events: seq<Event>)
    ensures events == StepsEvents(actions, DeclaredParams(actions), Loader(h.probe), h.run)
  {
    ghost var ps := DeclaredParams(actions);
    events := [];
    var i := 0;
    while i < |actions|
      invariant 0 <= i <= |actions|
      invariant events == StepsEvents(actions[..i], ps[..i], Loader(h.probe), h.run)
    {
      var action := actions[i];
      var step := RunAction(action.actionType, action.params, h);
      assert step == StepEvents(actions[i].actionType, ps[i], Loader(h.probe)(actions[i].actionType), h.run);
      StepsEventsSnoc(actions, ps, i, Loader(h.probe), h.run);
      events := events + step;
      i := i + 1;
    }
    assert actions[..i] == actions && ps[..i] == ps;
  }

  /** The action loop of `executeWithOverrides`: a non-empty `overrides[i]` replaces the params of action `i`. */
  method ExecuteStepsWithOverrides(actions: seq<ActionConfig>, overrides: seq<string>, h: Host) returns (events: seq<Event>)
    ensures events == StepsEvents(actions, EffectiveParams(actions, overrides), Loader(h.probe), h.run)
  {
    ghost var ps := EffectiveParams(actions, overrides);
    events := [];
    var i := 0;
    while i < |actions|
      invariant 0 <= i <= |actions|
      invariant events == StepsEvents(actions[..i], ps[..i], Loader(h.probe), h.run)
    {
      var action := actions[i];
      var params := if i < |overrides| && overrides[i] != "" then overrides[i] else action.params;
      EffectiveParamsChoice(actions, overrides, i);
      var step := RunAction(action.actionType, params, h);
      assert step == StepEvents(actions[i].actionType, ps[i], Loader(h.probe)(actions[i].actionType), h.run);
      StepsEventsSnoc(actions, ps, i, Loader(h.probe), h.run);
      events := events + step;
      i := i + 1;
    }
    assert actions[..i] == actions && ps[..i] == ps;
  }

  /** The body of the `try`: load the plugin, run it, report. */
  method RunAction(actionType: string, params: string, h: Host) returns (events: seq<Event>)
    ensures events == StepEvents(actionType, params, LoadResult(actionType, h.probe), h.run)
  {
    var path := "plugins/" + actionType + ".so";
    events := [Executing(actionType, params), LoadPlugin(path)];
    var loaded, attempts := PL.Load(path, h.probe);
    assert loaded == LoadResult(actionType, h.probe);
    if loaded.Err? {
      events := events + [ActionFailed(actionType, loaded.error)];
    } else {
      events := events + [RunPlugin(loaded.value, params)];
      var thrown := h.run(loaded.value, params);
      if thrown.None? {
        events := events + [ActionCompleted(actionType)];
      } else {
        events := events + [ActionFailed(actionType, thrown.value)];
      }
    }
  }

  // ---------------------------------------------------------------------
  // Properties of a run.

  function LoadOf(e: Event): seq<string> { if e.LoadPlugin? then [e.path] else [] }

  function CallOf(e: Event): seq<string> { if e.RunPlugin? then [e.params] else [] }

  function ReportOf(e: Event): seq<Event> { if e.ActionCompleted? || e.ActionFailed? then [e] else [] }

  /** The paths of the load requests in `es`, in order. */
  function Loads(es: seq<Event>): seq<string>
  {
    if es == [] then [] else Loads(es[..|es| - 1]) + LoadOf(es[|es| - 1])
  }

  /** The params of the plugin calls in `es`, in order. */
  function Calls(es: seq<Event>): seq<string>
  {
    if es == [] then [] else Calls(es[..|es| - 1]) + CallOf(es[|es| - 1])
  }

  /** The per-action reports (completed or failed) in `es`, in order. */
  function Reports(es: seq<Event>): seq<Event>
  {
    if es == [] then [] else Reports(es[..|es| - 1]) + ReportOf(es[|es| - 1])
  }

  lemma {:induction false} LoadsAppend(a: seq<Event>, b: seq<Event>)
    ensures Loads(a + b) == Loads(a) + Loads(b)
  {
    if b == [] {
      assert a + b == a;
    } else {
      assert (a + b)[..|a + b| - 1] == a + b[..|b| - 1];
      LoadsAppend(a, b[..|b| - 1]);
    }
  }

  lemma {:induction false} CallsAppend(a: seq<Event>, b: seq<Event>)
    ensures Calls(a + b) == Calls(a) + Calls(b)
  {
    if b == [] {
      assert a + b == a;
    } else {
      assert (a + b)[..|a + b| - 1] == a + b[..|b| - 1];
      CallsAppend(a, b[..|b| - 1]);
    }
  }

  lemma {:induction false} ReportsAppend(a: seq<Event>, b: seq<Event>)
    ensures Reports(a + b) == Reports(a) + Reports(b)
  {
    if b == [] {
      assert a + b == a;
    } else {
      assert (a + b)[..|a + b| - 1] == a + b[..|b| - 1];
      ReportsAppend(a, b[..|b| - 1]);
    }
  }

  /** What a step whose load gave `loaded` reports: completed exactly when it loaded and `execute` returned. */
  function StepReport(actionType: string, params: string, loaded: Result<string>, run: (string, string) -> Option<string>): (r: Event)
    ensures r == ActionCompleted(actionType) <==> loaded.Ok? && run(loaded.value, params).None?
    ensures r.ActionCompleted? || r.ActionFailed?
  {
    if loaded.Err? then ActionFailed(actionType, loaded.error)
    else if run(loaded.value, params).None? then ActionCompleted(actionType)
    else ActionFailed(actionType, run(loaded.value, params).value)
  }

  /** A step's events: the announcement, the load request, the call if it loaded, and the report. */
  lemma StepParts(actionType: string, params: string, loaded: Result<string>, run: (string, string) -> Option<string>)
    ensures StepEvents(actionType, params, loaded, run)
         == [Executing(actionType, params), LoadPlugin(PluginPath(actionType))]
            + (if loaded.Ok? then [RunPlugin(loaded.value, params)] else [])
            + [StepReport(actionType, params, loaded, run)]
  {
  }

  /** One step asks the loader exactly once, for `plugins/<type>.so`. */
  lemma StepLoads(actionType: string, params: string, loaded: Result<string>, run: (string, string) -> Option<string>)
    ensures Loads(StepEvents(actionType, params, loaded, run)) == [PluginPath(actionType)]
  {
    StepParts(actionType, params, loaded, run);
    var x, y := Executing(actionType, params), LoadPlugin(PluginPath(actionType));
    var mid := if loaded.Ok? then [RunPlugin(loaded.value, params)] else [];
    var r := [StepReport(actionType, params, loaded, run)];
    LoadsAppend([x, y] + mid, r);
    LoadsAppend([x, y], mid);
    LoadsAppend([x], [y]);
    assert [x, y] == [x] + [y];
    assert Loads([x]) == [] by { assert [x][..0] == []; }
    assert Loads([y]) == [y.path] by { assert [y][..0] == []; }
    assert Loads(mid) == [] by { if mid != [] { assert mid[..0] == []; } }
    assert Loads(r) == [] by { assert r[..0] == []; }
  }

  /** One step calls the plugin once, with the step's params, exactly when it loaded. */
  lemma StepCalls(actionType: string, params: string, loaded: Result<string>, run: (string, string) -> Option<string>)
    ensures Calls(StepEvents(actionType, params, loaded, run)) == (if loaded.Ok? then [params] else [])
  {
    StepParts(actionType, params, loaded, run);
    var x, y := Executing(actionType, params), LoadPlugin(PluginPath(actionType));
    var mid := if loaded.Ok? then [RunPlugin(loaded.value, params)] else [];
    var r := [StepReport(actionType, params, loaded, run)];
    CallsAppend([x, y] + mid, r);
    CallsAppend([x, y], mid);
    CallsAppend([x], [y]);
    assert [x, y] == [x] + [y];
    assert Calls([x]) == [] by { assert [x][..0] == []; }
    assert Calls([y]) == [] by { assert [y][..0] == []; }
    assert Calls(mid) == (if loaded.Ok? then [params] else []) by { if mid != [] { assert mid[..0] == []; } }
    assert Calls(r) == [] by { assert r[..0] == []; }
  }

  /** One step reports once; "completed" exactly when the plugin loaded and `execute` returned. */
  lemma StepReports(actionType: string, params: string, loaded: Result<string>, run: (string, string) -> Option<string>)
    ensures Reports(StepEvents(actionType, params, loaded, run)) == [StepReport(actionType, params, loaded, run)]
  {
    StepParts(actionType, params, loaded, run);
    var x, y := Executing(actionType, params), LoadPlugin(PluginPath(actionType));
    var mid := if loaded.Ok? then [RunPlugin(loaded.value, params)] else [];
    var r := [StepReport(actionType, params, loaded, run)];
    ReportsAppend([x, y] + mid, r);
    ReportsAppend([x, y], mid);
    ReportsAppend([x], [y]);
    assert [x, y] == [x] + [y];
    assert Reports([x]) == [] by { assert [x][..0] == []; }
    assert Reports([y]) == [] by { assert [y][..0] == []; }
    assert Reports(mid) == [] by { if mid != [] { assert mid[..0] == []; } }
    assert Reports(r) == r by { assert r[..0] == []; }
  }

  /** The events of a non-empty list of steps: those of all but the last, then the last step's. */
  lemma StepsEventsLast(acts: seq<ActionConfig>, ps: seq<string>, load: string -> Result<string>, run: (string, string) -> Option<string>)
    requires |ps| == |acts| && acts != []
    ensures var n := |acts| - 1;
      StepsEvents(acts, ps, load, run)
      == StepsEvents(acts[..n], ps[..n], load, run) + StepEvents(acts[n].actionType, ps[n], load(acts[n].actionType), run)
  {
  }

  /** The plugin paths of `acts`, in declared order. */
  function PluginPaths(acts: seq<ActionConfig>): (r: seq<string>)
    ensures |r| == |acts| && forall i :: 0 <= i < |acts| ==> r[i] == PluginPath(acts[i].actionType)
  {
    if acts == [] then [] else PluginPaths(acts[..|acts| - 1]) + [PluginPath(acts[|acts| - 1].actionType)]
  }

  /** What each step reports when run on its own. */
  function OwnReports(acts: seq<ActionConfig>, ps: seq<string>, load: string -> Result<string>, run: (string, string) -> Option<string>): (r: seq<Event>)
    requires |ps| == |acts|
    ensures |r| == |acts|
    ensures forall i :: 0 <= i < |acts| ==> r[i] == StepReport(acts[i].actionType, ps[i], load(acts[i].actionType), run)
  {
    if acts == [] then []
    else
      var t := acts[|acts| - 1].actionType;
      OwnReports(acts[..|acts| - 1], ps[..|ps| - 1], load, run) + [StepReport(t, ps[|ps| - 1], load(t), run)]
  }

  /** The own reports of a non-empty list of steps: those of all but the last, then the last step's. */
  lemma OwnReportsLast(acts: seq<ActionConfig>, ps: seq<string>, load: string -> Result<string>, run: (string, string) -> Option<string>)
    requires |ps| == |acts| && acts != []
    ensures var n := |acts| - 1;
      OwnReports(acts, ps, load, run)
      == OwnReports(acts[..n], ps[..n], load, run) + [StepReport(acts[n].actionType, ps[n], load(acts[n].actionType), run)]
  {
  }

  lemma ButLastThenLast<T>(s: seq<T>)
    requires s != []
    ensures s == s[..|s| - 1] + [s[|s| - 1]]
  {
  }

  /** Every step is attempted, in declared order: one load request per action, for its plugin path. */
  lemma {:induction false} LoadsInOrder(acts: seq<ActionConfig>, ps: seq<string>, load: string -> Result<string>, run: (string, string) -> Option<string>)
    requires |ps| == |acts|
    ensures Loads(StepsEvents(acts, ps, load, run)) == PluginPaths(acts)
  {
    if acts != [] {
      var n, t := |acts| - 1, acts[|acts| - 1].actionType;
      var front, last := StepsEvents(acts[..n], ps[..n], load, run), StepEvents(t, ps[n], load(t), run);
      LoadsInOrder(acts[..n], ps[..n], load, run);
      StepLoads(t, ps[n], load(t), run);
      StepsEventsLast(acts, ps, load, run);
      LoadsAppend(front, last);
      assert PluginPaths(acts) == PluginPaths(acts[..n]) + [PluginPath(t)];
    }
  }

  /**
   * Failures stay with their step: one report per action, in order, and the
   * report of step `i` is the one step `i` gives when run on its own.
   */
  lemma {:induction false} ReportsInOrder(acts: seq<ActionConfig>, ps: seq<string>, load: string -> Result<string>, run: (string, string) -> Option<string>)
    requires |ps| == |acts|
    ensures Reports(StepsEvents(acts, ps, load, run)) == OwnReports(acts, ps, load, run)
  {
    if acts != [] {
      var n, t := |acts| - 1, acts[|acts| - 1].actionType;
      var front, last := StepsEvents(acts[..n], ps[..n], load, run), StepEvents(t, ps[n], load(t), run);
      ReportsInOrder(acts[..n], ps[..n], load, run);
      StepReports(t, ps[n], load(t), run);
      StepsEventsLast(acts, ps, load, run);
      ReportsAppend(front, last);
      OwnReportsLast(acts, ps, load, run);
    }
  }

  /** At most one plugin call per step. */
  lemma {:induction false} CallsAtMostOne(acts: seq<ActionConfig>, ps: seq<string>, load: string -> Result<string>, run: (string, string) -> Option<string>)
    requires |ps| == |acts|
    ensures |Calls(StepsEvents(acts, ps, load, run))| <= |acts|
  {
    if acts != [] {
      var n, t := |acts| - 1, acts[|acts| - 1].actionType;
      var front, last := StepsEvents(acts[..n], ps[..n], load, run), StepEvents(t, ps[n], load(t), run);
      CallsAtMostOne(acts[..n], ps[..n], load, run);
      StepCalls(t, ps[n], load(t), run);
      StepsEventsLast(acts, ps, load, run);
      CallsAppend(front, last);
    }
  }

  /** When every plugin loads, the calls pass exactly the chosen params, in order. */
  lemma {:induction false} CallsInOrder(acts: seq<ActionConfig>, ps: seq<string>, load: string -> Result<string>, run: (string, string) -> Option<string>)
    requires |ps| == |acts|
    requires forall i :: 0 <= i < |acts| ==> load(acts[i].actionType).Ok?
    ensures Calls(StepsEvents(acts, ps, load, run)) == ps
  {
    if acts != [] {
      var n, t := |acts| - 1, acts[|acts| - 1].actionType;
      var front, last := StepsEvents(acts[..n], ps[..n], load, run), StepEvents(t, ps[n], load(t), run);
      assert forall i :: 0 <= i < n ==> acts[..n][i] == acts[i];
      CallsInOrder(acts[..n], ps[..n], load, run);
      assert load(t).Ok?;
      StepCalls(t, ps[n], load(t), run);
      StepsEventsLast(acts, ps, load, run);
      CallsAppend(front, last);
      ButLastThenLast(ps);
    }
  }

  lemma SingleFilters(e: Event)
    ensures Loads([e]) == LoadOf(e) && Calls([e]) == CallOf(e) && Reports([e]) == ReportOf(e)
  {
    assert [e][..0] == [];
  }

  /** A rule that evaluates false stops the run before any plugin is loaded or called, in both modes. */
  lemma RuleFalseRunsNothing(w: Workflow, withOverrides: bool, ps: seq<string>, h: Host)
    requires |ps| == |w.actions|
    ensures var r := w.RunWith(withOverrides, RE.Value(false), ps, h);
      && r.escaped == None && Loads(r.events) == [] && Calls(r.events) == []
      && r.events[|r.events| - 1] == RuleNotSatisfied(w.name)
  {
    var x, y := Starting(w.name, withOverrides), RuleNotSatisfied(w.name);
    assert w.RunWith(withOverrides, RE.Value(false), ps, h).events == [x] + [y];
    LoadsAppend([x], [y]);
    CallsAppend([x], [y]);
    SingleFilters(x);
    SingleFilters(y);
  }

  /** A rule that holds makes the run end with "Workflow completed", with no exception escaping. */
  lemma RuleTrueCompletes(w: Workflow, withOverrides: bool, ps: seq<string>, h: Host)
    requires |ps| == |w.actions|
    ensures var r := w.RunWith(withOverrides, RE.Value(true), ps, h);
      r.escaped == None && r.events[0] == Starting(w.name, withOverrides) && r.events[|r.events| - 1] == WorkflowCompleted(w.name)
  {
  }

  /** With a rule that holds, the run is the "Starting" line, the steps' events, then "Workflow completed". */
  lemma RuleTrueEvents(w: Workflow, withOverrides: bool, ps: seq<string>, h: Host)
    requires |ps| == |w.actions|
    ensures w.RunWith(withOverrides, RE.Value(true), ps, h).events
         == [Starting(w.name, withOverrides)] + StepsEvents(w.actions, ps, Loader(h.probe), h.run) + [WorkflowCompleted(w.name)]
  {
  }

  /** The "Starting" and "Workflow completed" lines add no load request and no report. */
  lemma Framed(name: string, withOverrides: bool, mid: seq<Event>)
    ensures Loads([Starting(name, withOverrides)] + mid + [WorkflowCompleted(name)]) == Loads(mid)
    ensures Reports([Starting(name, withOverrides)] + mid + [WorkflowCompleted(name)]) == Reports(mid)
  {
    var x, y := Starting(name, withOverrides), WorkflowCompleted(name);
    LoadsAppend([x], mid);
    LoadsAppend([x] + mid, [y]);
    ReportsAppend([x], mid);
    ReportsAppend([x] + mid, [y]);
    SingleFilters(x);
    SingleFilters(y);
  }

  /** A rule that holds runs every step: the run's load requests are the plugin paths of the actions, in order. */
  lemma RuleTrueLoadsAll(w: Workflow, withOverrides: bool, ps: seq<string>, h: Host)
    requires |ps| == |w.actions|
    ensures Loads(w.RunWith(withOverrides, RE.Value(true), ps, h).events) == PluginPaths(w.actions)
  {
    RuleTrueEvents(w, withOverrides, ps, h);
    Framed(w.name, withOverrides, StepsEvents(w.actions, ps, Loader(h.probe), h.run));
    LoadsInOrder(w.actions, ps, Loader(h.probe), h.run);
  }

  /** With a rule that holds, the reports of the run are those of its steps. */
  lemma RuleTrueStepReports(w: Workflow, withOverrides: bool, ps: seq<string>, h: Host)
    requires |ps| == |w.actions|
    ensures Reports(w.RunWith(withOverrides, RE.Value(true), ps, h).events) == Reports(StepsEvents(w.actions, ps, Loader(h.probe), h.run))
  {
    RuleTrueEvents(w, withOverrides, ps, h);
    Framed(w.name, withOverrides, StepsEvents(w.actions, ps, Loader(h.probe), h.run));
  }

  /** A rule that holds gives one report per action, each the one its step gives on its own. */
  lemma RuleTrueReportsAll(w: Workflow, withOverrides: bool, ps: seq<string>, h: Host)
    requires |ps| == |w.actions|
    ensures Reports(w.RunWith(withOverrides, RE.Value(true), ps, h).events) == OwnReports(w.actions, ps, Loader(h.probe), h.run)
  {
    RuleTrueStepReports(w, withOverrides, ps, h);
    ReportsInOrder(w.actions, ps, Loader(h.probe), h.run);
  }

  /** A rule exception escapes the run right after the "Starting" line, before any step. */
  lemma RuleErrorEscapes(w: Workflow, withOverrides: bool, e: RE.RuleError, ps: seq<string>, h: Host)
    requires |ps| == |w.actions|
    ensures var r := w.RunWith(withOverrides, RE.Raised(e), ps, h);
      r.escaped == Some(e) && r.events == [Starting(w.name, withOverrides)] && Loads(r.events) == []
  {
    SingleFilters(Starting(w.name, withOverrides));
  }

  /** Step `i` gets `overrides[i]` when there is one and it is not empty, else its declared params. */
  lemma EffectiveParamsChoice(acts: seq<ActionConfig>, overrides: seq<string>, i: nat)
    requires i < |acts|
    ensures |EffectiveParams(acts, overrides)| == |acts|
    ensures i < |overrides| && overrides[i] != "" ==> EffectiveParams(acts, overrides)[i] == overrides[i]
    ensures i >= |overrides| || overrides[i] == "" ==> EffectiveParams(acts, overrides)[i] == acts[i].params
  {
  }

  /** Overrides past the last step are ignored. */
  lemma ExtraOverridesIgnored(acts: seq<ActionConfig>, overrides: seq<string>, extra: seq<string>)
    requires |overrides| >= |acts|
    ensures EffectiveParams(acts, overrides + extra) == EffectiveParams(acts, overrides)
  {
  }

  /** No overrides, or only empty ones, leave every action its declared params. */
  lemma BlankOverrides(acts: seq<ActionConfig>, overrides: seq<string>)
    requires forall k :: 0 <= k < |overrides| ==> overrides[k] == ""
    ensures EffectiveParams(acts, overrides) == DeclaredParams(acts)
  {
  }

  /**
   * With no overrides, or only empty ones, `executeWithOverrides` produces
   * the same trace as `execute` after its first line, and the same escape.
   */
  lemma NoOverridesIsExecute(w: Workflow, overrides: seq<string>, verdict: RE.Outcome, h: Host)
    requires forall k :: 0 <= k < |overrides| ==> overrides[k] == ""
    ensures |EffectiveParams(w.actions, overrides)| == |w.actions|
    ensures w.RunWith(true, verdict, EffectiveParams(w.actions, overrides), h).events[1..]
         == w.RunWith(false, verdict, DeclaredParams(w.actions), h).events[1..]
    ensures w.RunWith(true, verdict, EffectiveParams(w.actions, overrides), h).escaped
         == w.RunWith(false, verdict, DeclaredParams(w.actions), h).escaped
  {
    BlankOverrides(w.actions, overrides);
    ModesDifferInFirstLine(w, verdict, DeclaredParams(w.actions), h);
  }

  /** The two run modes differ only in their "Starting" line. */
  lemma ModesDifferInFirstLine(w: Workflow, verdict: RE.Outcome, ps: seq<string>, h: Host)
    requires |ps| == |w.actions|
    ensures w.RunWith(true, verdict, ps, h).events[1..] == w.RunWith(false, verdict, ps, h).events[1..]
    ensures w.RunWith(true, verdict, ps, h).escaped == w.RunWith(false, verdict, ps, h).escaped
  {
    var x, y := Starting(w.name, true), Starting(w.name, false);
    var rest := match verdict
      case Raised(_) => []
      case Value(b) =>
        if !b then [RuleNotSatisfied(w.name)]
        else StepsEvents(w.actions, ps, Loader(h.probe), h.run) + [WorkflowCompleted(w.name)];
    assert w.RunWith(true, verdict, ps, h).events == [x] + rest;
    assert w.RunWith(false, verdict, ps, h).events == [y] + rest;
    assert ([x] + rest)[1..] == rest == ([y] + rest)[1..];
  }
}
