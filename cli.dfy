/**
 * The command-line front end: the comma-separated workflow selection, the
 * choice of configuration file with the exit codes of the direct `run`
 * mode, and the collection of per-action overrides.
 *
 * The file system is an oracle: `present` says whether a path exists and
 * `parse` is what reading and parsing that file gives (an empty object when
 * it cannot be opened or parsed). The menu loop itself is not modelled.
 */
module Cli {
  import opened Basics
  import opened Json
  import opened Workflows
  import opened WorkflowManager
  import RE = RuleEngine

  /** Length of the comma-free text at the start of `s`: where the first ',' is, or `|s|`. */
  function ItemEnd(s: string): (r: nat)
    ensures r <= |s|
    ensures forall k :: 0 <= k < r ==> s[k] != ','
    ensures r < |s| ==> s[r] == ','
  {
    if s == [] || s[0] == ',' then 0 else ItemEnd(s[1..]) + 1
  }

  /** `getline(ss, item, ',')` on a non-empty remainder: the item and what is left after its comma. */
  function NextItem(s: string): (r: (string, string))
    requires s != []
    ensures |r.1| < |s|
    ensures forall k :: 0 <= k < |r.0| ==> r.0[k] != ','
    ensures s == r.0 || s == r.0 + [','] + r.1
  {
    var i := ItemEnd(s);
    if i == |s| then (s, []) else (s[..i], s[i + 1..])
  }

  /** The items the `getline` loop reads: a trailing comma starts no item. */
  function Fields(s: string): (r: seq<string>)
    ensures r == [] <==> s == []
    ensures |r| <= |s|
    ensures forall j :: 0 <= j < |r| ==> forall k :: 0 <= k < |r[j]| ==> r[j][k] != ','
    decreases |s|
  {
    if s == [] then [] else var (item, rest) := NextItem(s); [item] + Fields(rest)
  }

  /**
   * The selection one item contributes: its number minus one, when `read`
   * (`stoi`) gives a number in `1..limit`.
   */
  function Pick(item: string, limit: int, read: string -> Option<int>): (r: seq<int>)
    ensures |r| <= 1
    ensures r != [] <==> read(item).Some? && 1 <= read(item).value <= limit
    ensures r != [] ==> 0 <= r[0] < limit && read(item) == Some(r[0] + 1)
  {
    var num := read(item);
    if num.Some? && num.value > 0 && num.value <= limit then [num.value - 1] else []
  }

  /** The selection of all the items, in order. */
  function Picks(items: seq<string>, limit: int, read: string -> Option<int>): (r: seq<int>)
    ensures |r| <= |items|
  {
    if items == [] then [] else Pick(items[0], limit, read) + Picks(items[1..], limit, read)
  }

  /** What `parseSelectionList(s, max)` returns: the limit is `static_cast<int>(max)`. */
  function Selection(s: string, max: nat): (r: seq<int>)
    ensures |r| <= |s|
  {
    Picks(Fields(s), ToInt32(max), Stoi)
  }

  /** One `getline` step: the first item's picks, then the rest's. */
  lemma PickStep(before: seq<int>, rest: string, limit: int, read: string -> Option<int>)
    requires rest != []
    ensures before + Picks(Fields(rest), limit, read)
            == (before + Pick(NextItem(rest).0, limit, read)) + Picks(Fields(NextItem(rest).1), limit, read)
  {
    var next := NextItem(rest);
    assert Fields(rest) == [next.0] + Fields(next.1);
    assert ([next.0] + Fields(next.1))[1..] == Fields(next.1);
  }

  /** `parseSelectionList(s, max)`, with `max` a `size_t`. */
  method ParseSelectionList(s: string, max: nat) returns (result: seq<int>)
    requires max < 0x1_0000_0000_0000_0000
    ensures result == Selection(s, max)
  {
    var limit := ToInt32(max);
    result := [];
    var rest := s;
    while rest != []
      invariant result + Picks(Fields(rest), limit, Stoi) == Selection(s, max)
      decreases |rest|
    {
      var next := NextItem(rest);
      var item := next.0;
      ghost var before := result;
      var num := Stoi(item);
      if num.Some? && num.value > 0 && num.value <= limit {
        result := result + [num.value - 1];
      }
      assert result == before + Pick(item, limit, Stoi);
      PickStep(before, rest, limit, Stoi);
      rest := next.1;
    }
    assert result + [] == result;
  }

  /**
   * Picked indices lie in `0..limit`, and each is one less than the number
   * some item reads as.
   */
  lemma {:induction false} PicksBounds(items: seq<string>, limit: int, read: string -> Option<int>)
    ensures forall k :: 0 <= k < |Picks(items, limit, read)| ==>
      && 0 <= Picks(items, limit, read)[k] < limit
      && exists j :: 0 <= j < |items| && read(items[j]) == Some(Picks(items, limit, read)[k] + 1)
  {
    if items != [] {
      PicksBounds(items[1..], limit, read);
      var p, r := Pick(items[0], limit, read), Picks(items[1..], limit, read);
      assert Picks(items, limit, read) == p + r;
      forall k | 0 <= k < |p + r|
        ensures 0 <= (p + r)[k] < limit
        ensures exists j :: 0 <= j < |items| && read(items[j]) == Some((p + r)[k] + 1)
      {
        if k < |p| {
          assert read(items[0]) == Some((p + r)[k] + 1);
        } else {
          assert (p + r)[k] == r[k - |p|];
          var j :| 0 <= j < |items[1..]| && read(items[1..][j]) == Some(r[k - |p|] + 1);
          assert read(items[j + 1]) == Some((p + r)[k] + 1);
        }
      }
    }
  }

  /** Every index `parseSelectionList(s, max)` returns is a valid position in a list of `max` names. */
  lemma SelectionBounds(s: string, max: nat)
    ensures forall k :: 0 <= k < |Selection(s, max)| ==> 0 <= Selection(s, max)[k] < max
  {
    PicksBounds(Fields(s), ToInt32(max), Stoi);
  }

  /** With no room for a number, nothing is selected. */
  lemma {:induction false} NothingToSelect(items: seq<string>, limit: int, read: string -> Option<int>)
    requires limit <= 0
    ensures Picks(items, limit, read) == []
  {
    if items != [] {
      NothingToSelect(items[1..], limit, read);
    }
  }

  /** With no names to choose from, `parseSelectionList` returns nothing. */
  lemma SelectionFromNone(s: string)
    ensures Selection(s, 0) == []
  {
    NothingToSelect(Fields(s), ToInt32(0), Stoi);
  }

  /** Selection keeps the items' order: the picks of a concatenation are the concatenated picks. */
  lemma {:induction false} PicksAppend(a: seq<string>, b: seq<string>, limit: int, read: string -> Option<int>)
    ensures Picks(a + b, limit, read) == Picks(a, limit, read) + Picks(b, limit, read)
  {
    if a == [] {
      assert a + b == b;
    } else {
      assert (a + b)[0] == a[0] && (a + b)[1..] == a[1..] + b;
      PicksAppend(a[1..], b, limit, read);
    }
  }

  /**
   * When every item reads as a number in range, each one is selected, in
   * order and with repetitions.
   */
  lemma {:induction false} PicksAll(items: seq<string>, nums: seq<int>, limit: int, read: string -> Option<int>)
    requires |nums| == |items|
    requires forall j :: 0 <= j < |items| ==> read(items[j]) == Some(nums[j]) && 1 <= nums[j] <= limit
    ensures |Picks(items, limit, read)| == |items|
    ensures forall j :: 0 <= j < |items| ==> Picks(items, limit, read)[j] == nums[j] - 1
  {
    if items != [] {
      PicksAll(items[1..], nums[1..], limit, read);
    }
  }

  /** Items that do not read as a number in `1..limit` are dropped without a trace. */
  lemma Dropped(a: seq<string>, x: string, b: seq<string>, limit: int, read: string -> Option<int>)
    requires read(x).None? || read(x).value < 1 || read(x).value > limit
    ensures Picks(a + [x] + b, limit, read) == Picks(a + b, limit, read)
  {
    PicksAppend(a + [x], b, limit, read);
    PicksAppend(a, [x], limit, read);
    PicksAppend(a, b, limit, read);
    assert [x][0] == x && [x][1..] == [];
    assert Pick(x, limit, read) == [];
    assert Picks(a, limit, read) + [] == Picks(a, limit, read);
  }

  /** The items joined by commas, as a user types them. */
  function Join(items: seq<string>): string
  {
    if items == [] then []
    else if |items| == 1 then items[0]
    else items[0] + [','] + Join(items[1..])
  }

  /** The `getline` loop reads back the comma-free items a list was written from. */
  lemma {:induction false} FieldsOfJoin(items: seq<string>)
    requires forall j :: 0 <= j < |items| ==> (forall k :: 0 <= k < |items[j]| ==> items[j][k] != ',')
    requires items != [] ==> items[|items| - 1] != []
    ensures Fields(Join(items)) == items
  {
    if items != [] {
      var x := items[0];
      if |items| == 1 {
        assert ItemEnd(x) == |x|;
      } else {
        var s := x + [','] + Join(items[1..]);
        assert s[|x|] == ',';
        assert ItemEnd(s) == |x|;
        assert s[..|x|] == x;
        assert s[|x| + 1..] == Join(items[1..]);
        FieldsOfJoin(items[1..]);
      }
    }
  }

  /** The configuration files tried, in order. */
  const CONFIG_CANDIDATES: seq<string> :=
    ["config/workflows.json", "../config/workflows.json", "./config/workflows.json", "../../config/workflows.json"]

  /** The first of `cs` that exists. */
  function FirstExisting(cs: seq<string>, present: string -> bool): (r: Option<string>)
    ensures r.None? <==> forall k :: 0 <= k < |cs| ==> !present(cs[k])
    ensures r.Some? ==> exists k :: 0 <= k < |cs| && cs[k] == r.value && present(cs[k])
                                    && forall j :: 0 <= j < k ==> !present(cs[j])
  {
    if cs == [] then None
    else if present(cs[0]) then Some(cs[0])
    else
      var r := FirstExisting(cs[1..], present);
      assert r.Some? ==> exists k :: 0 <= k < |cs[1..]| && cs[1..][k] == r.value && present(cs[1..][k])
                                     && forall j :: 0 <= j < k ==> !present(cs[1..][j]);
      r
  }

  /** The candidate loop: the first existing configuration file, if any. */
  method FindConfig(present: string -> bool) returns (used: Option<string>)
    ensures used == FirstExisting(CONFIG_CANDIDATES, present)
  {
    var i := 0;
    while i < |CONFIG_CANDIDATES|
      invariant 0 <= i <= |CONFIG_CANDIDATES|
      invariant FirstExisting(CONFIG_CANDIDATES, present) == FirstExisting(CONFIG_CANDIDATES[i..], present)
    {
      var c := CONFIG_CANDIDATES[i];
      if present(c) {
        return Some(c);
      }
      assert CONFIG_CANDIDATES[i..][1..] == CONFIG_CANDIDATES[i + 1..];
      i := i + 1;
    }
    return None;
  }

  /**
   * How the program ends: an exit code, the interactive menu over the loaded
   * workflows, or `std::terminate` when a rule exception escapes the
   * workflow started by the direct mode (nothing on that path catches it).
   */
  datatype Ending =
    | Exited(code: int, config: Option<string>, run: Option<Run>)
    | Menu(usedConfig: string, workflows: seq<Workflow>)
    | Terminated(usedConfig: string, aborted: Run)

  /** What `startWorkflow(name)` runs among `ws`: the first workflow with that name, if any. */
  function NamedRun(ws: seq<Workflow>, name: string, h: Host): (r: Option<Run>)
    ensures r.None? <==> FirstNamed(ws, name).None?
    ensures r.Some? ==>
      var w := ws[FirstNamed(ws, name).value];
      r.value == w.RunWith(false, RE.Evaluate(w.rule, h.env), DeclaredParams(w.actions), h)
  {
    var k := FirstNamed(ws, name);
    if k.None? then None
    else
      var w := ws[k.value];
      Some(w.RunWith(false, RE.Evaluate(w.rule, h.env), DeclaredParams(w.actions), h))
  }

  /** The direct mode `run <name>` (or `r <name>`). */
  function DirectRun(name: string, present: string -> bool, parse: string -> Json, dump: Json -> Option<string>, h: Host): (r: Ending)
    ensures !r.Menu?
    ensures r.Exited? ==> r.code == 0 || r.code == 1
    ensures r.Terminated? ==> r.aborted.escaped.Some?
  {
    var config := FirstExisting(CONFIG_CANDIDATES, present);
    if config.None? then Exited(1, None, None)
    else
      var run := NamedRun(ParseWorkflows(parse(config.value), dump), name, h);
      if run.None? then Exited(1, config, None)
      else if run.value.escaped.Some? then Terminated(config.value, run.value)
      else Exited(0, config, run)
  }

  /** Whether the arguments ask for the direct mode. */
  predicate DirectMode(args: seq<string>)
  {
    |args| >= 3 && (args[1] == "run" || args[1] == "r")
  }

  /** What `main(argc, argv)` does up to the menu loop. */
  function LaunchOutcome(args: seq<string>, present: string -> bool, parse: string -> Json, dump: Json -> Option<string>, h: Host): (r: Ending)
    ensures r.Terminated? || r.Menu? ==> FirstExisting(CONFIG_CANDIDATES, present).Some?
    ensures r.Terminated? ==> DirectMode(args)
    ensures r.Menu? <==> !DirectMode(args) && FirstExisting(CONFIG_CANDIDATES, present).Some?
    ensures !DirectMode(args) && !r.Menu? ==> r == Exited(0, None, None)
  {
    if DirectMode(args) then DirectRun(args[2], present, parse, dump, h)
    else
      var config := FirstExisting(CONFIG_CANDIDATES, present);
      if config.None? then Exited(0, None, None)
      else Menu(config.value, ParseWorkflows(parse(config.value), dump))
  }

  /** The name check and the start of the direct mode, over a loaded registry. */
  method RunLoaded(manager: Manager, name: string, h: Host) returns (run: Option<Run>)
    ensures run == NamedRun(manager.workflows, name, h)
  {
    var names := manager.ListWorkflowNames();
    if name !in names {
      return None;
    }
    var started := manager.StartWorkflow(name, h);
    return Some(started.run);
  }

  /** The direct mode: find the configuration, load it, check the name, run the workflow. */
  method RunDirect(name: string, present: string -> bool, parse: string -> Json, dump: Json -> Option<string>, h: Host)
    returns (r: Ending)
    ensures r == DirectRun(name, present, parse, dump, h)
  {
    var config := FindConfig(present);
    if config.None? {
      return Exited(1, None, None);
    }
    var manager := new Manager();
    manager.LoadWorkflows(parse(config.value), dump);
    ghost var ws := ParseWorkflows(parse(config.value), dump);
    assert manager.workflows == [] + ws == ws;
    var run := RunLoaded(manager, name, h);
    if run.None? {
      return Exited(1, config, None);
    }
    if run.value.escaped.Some? {
      return Terminated(config.value, run.value);
    }
    return Exited(0, config, run);
  }

  /** `main`, from the arguments to the exit code or to the menu loop. */
  method Launch(args: seq<string>, present: string -> bool, parse: string -> Json, dump: Json -> Option<string>, h: Host)
    returns (r: Ending)
    ensures r == LaunchOutcome(args, present, parse, dump, h)
  {
    if DirectMode(args) {
      r := RunDirect(args[2], present, parse, dump, h);
      return;
    }
    var config := FindConfig(present);
    if config.None? {
      return Exited(0, None, None);
    }
    var manager := new Manager();
    manager.LoadWorkflows(parse(config.value), dump);
    return Menu(config.value, manager.workflows);
  }

  /**
   * The direct mode's ending: exit code 1 when no configuration file exists
   * or no loaded workflow has the name; otherwise the first workflow with
   * that name from the first existing configuration file runs, and the
   * program exits with 0 after it unless its rule threw, which terminates it.
   */
  lemma DirectRunExitCode(name: string, present: string -> bool, parse: string -> Json, dump: Json -> Option<string>, h: Host)
    ensures var r, config := DirectRun(name, present, parse, dump, h), FirstExisting(CONFIG_CANDIDATES, present);
      var run := if config.Some? then NamedRun(ParseWorkflows(parse(config.value), dump), name, h) else None;
      && (r.Exited? || r.Terminated?)
      && (r.Terminated? <==> run.Some? && run.value.escaped.Some?)
      && (r.Terminated? ==> config == Some(r.usedConfig) && run == Some(r.aborted))
      && (r.Exited? ==> (r.code == 0 || r.code == 1) && r.config == config && (r.run.Some? <==> r.code == 0))
      && (r.Exited? && r.code == 0 <==> run.Some? && run.value.escaped.None?)
      && (run.Some? <==> config.Some? && FirstNamed(ParseWorkflows(parse(config.value), dump), name).Some?)
  {
  }

  /** A rule that throws in the direct mode ends the program before its exit code is returned. */
  lemma RuleErrorTerminates(name: string, present: string -> bool, parse: string -> Json, dump: Json -> Option<string>, h: Host)
    requires FirstExisting(CONFIG_CANDIDATES, present).Some?
    requires var ws := ParseWorkflows(parse(FirstExisting(CONFIG_CANDIDATES, present).value), dump);
      var k := FirstNamed(ws, name);
      k.Some? && RE.Evaluate(ws[k.value].rule, h.env).Raised?
    ensures DirectRun(name, present, parse, dump, h).Terminated?
    ensures DirectRun(name, present, parse, dump, h).aborted.events
         == [Starting(name, false)]
  {
    var ws := ParseWorkflows(parse(FirstExisting(CONFIG_CANDIDATES, present).value), dump);
    var k := FirstNamed(ws, name).value;
    RuleErrorEscapes(ws[k], false, RE.Evaluate(ws[k].rule, h.env).e, DeclaredParams(ws[k].actions), h);
  }

  /** Without a configuration file the direct mode fails and the interactive mode quits cleanly. */
  lemma NoConfig(args: seq<string>, present: string -> bool, parse: string -> Json, dump: Json -> Option<string>, h: Host)
    requires forall k :: 0 <= k < |CONFIG_CANDIDATES| ==> !present(CONFIG_CANDIDATES[k])
    ensures LaunchOutcome(args, present, parse, dump, h) == Exited(if DirectMode(args) then 1 else 0, None, None)
  {
  }

  /** The root `config/workflows.json` wins whenever it exists. */
  lemma RootConfigFirst(present: string -> bool)
    requires present("config/workflows.json")
    ensures FirstExisting(CONFIG_CANDIDATES, present) == Some("config/workflows.json")
  {
  }

  /**
   * The override prompt: one line per action, read from `lines` in order; a
   * line missing at end of input reads as blank.
   */
  method CollectOverrides(lines: seq<string>, count: nat) returns (overrides: seq<string>)
    ensures |overrides| == count
    ensures forall i :: 0 <= i < count ==> overrides[i] == (if i < |lines| then lines[i] else "")
  {
    overrides := [];
    var i := 0;
    while i < count
      invariant 0 <= i <= count && |overrides| == i
      invariant forall j :: 0 <= j < i ==> overrides[j] == (if j < |lines| then lines[j] else "")
    {
      var line := if i < |lines| then lines[i] else "";
      overrides := overrides + [line];
      i := i + 1;
    }
  }

  /**
   * Overrides collected for every action of a workflow: a typed line replaces
   * that action's params, and a blank one keeps them.
   */
  lemma CollectedOverridesApply(acts: seq<ActionConfig>, lines: seq<string>, overrides: seq<string>)
    requires |overrides| == |acts|
    requires forall i :: 0 <= i < |acts| ==> overrides[i] == (if i < |lines| then lines[i] else "")
    ensures |EffectiveParams(acts, overrides)| == |acts|
    ensures forall i :: 0 <= i < |acts| ==>
      EffectiveParams(acts, overrides)[i] == (if i < |lines| && lines[i] != "" then lines[i] else acts[i].params)
  {
  }
}
