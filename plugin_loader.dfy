/**
 * `PluginLoader::load`: the list of candidate paths tried for a plugin, and
 * the search that returns the first candidate which both opens and exports
 * `create_action`, collecting the loader's error messages on the way.
 *
 * `dlopen` and `dlsym` are an oracle `probe` from a path to what happened
 * to it; a loaded plugin is identified by the candidate path it came from.
 */
module PluginLoader {
  import opened Basics

  /** What `dlopen` and then `dlsym(handle, "create_action")` did for one path. */
  datatype Probe =
    | NotOpened(openError: Option<string>)   // dlopen returned null; dlerror()
    | NoSymbol(symbolError: Option<string>)  // dlsym returned null; dlerror()
    | Loaded                                 // create_action found and called

  /** `p.substr(p.find_last_of('/') + 1)`: the text after the last '/', or all of `p`. */
  function BaseName(p: string): (r: string)
    ensures |r| <= |p| && p[|p| - |r|..] == r
    ensures forall k :: 0 <= k < |r| ==> r[k] != '/'
    ensures (forall k :: 0 <= k < |p| ==> p[k] != '/') ==> r == p
    ensures |r| < |p| ==> p[|p| - |r| - 1] == '/'
  {
    p[LastIndexOf(p, '/') + 1..]
  }

  predicate EndsWithSo(b: string)
  {
    |b| > 3 && b[|b| - 3..] == ".so"
  }

  /** The `lib`-prefixed paths, tried when the base name does not start with `lib`. */
  function LibVariants(b: string): (r: seq<string>)
    ensures |r| == if StartsWith(b, "lib") then 0 else 3
    ensures !StartsWith(b, "lib") ==> r[0] == "plugins/lib" + b && r[1] == "./plugins/lib" + b && r[2] == "../plugins/lib" + b
  {
    if StartsWith(b, "lib") then [] else ["plugins/lib" + b, "./plugins/lib" + b, "../plugins/lib" + b]
  }

  /** The `.dylib` paths, tried when the base name ends in `.so`. */
  function DylibVariants(b: string): (r: seq<string>)
    ensures |r| == if EndsWithSo(b) then 3 else 0
    ensures EndsWithSo(b) ==>
      var w := b[..|b| - 3];
      r[0] == "plugins/" + w + ".dylib" && r[1] == "./plugins/" + w + ".dylib" && r[2] == "../plugins/" + w + ".dylib"
  {
    if EndsWithSo(b) then
      var w := b[..|b| - 3];
      ["plugins/" + w + ".dylib", "./plugins/" + w + ".dylib", "../plugins/" + w + ".dylib"]
    else []
  }

  /** Every path `load(p)` tries, in the order it tries them. */
  function Candidates(p: string): (r: seq<string>)
    ensures 5 <= |r| <= 11
    ensures r[0] == p
  {
    var b := BaseName(p);
    [p, "./" + p, "../" + p, "./plugins/" + b, "../plugins/" + b] + LibVariants(b) + DylibVariants(b)
  }

  /** The candidate vector, built by `push_back` as the loader does. */
  method BuildCandidates(p: string) returns (candidates: seq<string>)
    ensures candidates == Candidates(p)
  {
    var base := BaseName(p);
    candidates := [p, "./" + p, "../" + p, "./plugins/" + base, "../plugins/" + base];
    if !StartsWith(base, "lib") {
      candidates := candidates + ["plugins/lib" + base, "./plugins/lib" + base, "../plugins/lib" + base];
    }
    assert candidates == [p, "./" + p, "../" + p, "./plugins/" + base, "../plugins/" + base] + LibVariants(base);
    if |base| > 3 && base[|base| - 3..] == ".so" {
      var without := base[..|base| - 3];
      candidates := candidates + ["plugins/" + without + ".dylib", "./plugins/" + without + ".dylib", "../plugins/" + without + ".dylib"];
    }
  }

  /** The list's shape: five fixed paths, then the `lib` and the `.dylib` variants when they apply. */
  lemma CandidateList(p: string)
    ensures var c, b := Candidates(p), BaseName(p);
      && |c| == 5 + (if StartsWith(b, "lib") then 0 else 3) + (if EndsWithSo(b) then 3 else 0)
      && 5 <= |c| <= 11
      && c[0] == p && c[1] == "./" + p && c[2] == "../" + p
      && c[3] == "./plugins/" + b && c[4] == "../plugins/" + b
      && (!StartsWith(b, "lib") ==> c[5] == "plugins/lib" + b && c[6] == "./plugins/lib" + b && c[7] == "../plugins/lib" + b)
      && (EndsWithSo(b) ==>
            var w := b[..|b| - 3];
            c[|c| - 3] == "plugins/" + w + ".dylib" && c[|c| - 2] == "./plugins/" + w + ".dylib"
            && c[|c| - 1] == "../plugins/" + w + ".dylib")
  {
    var b := BaseName(p);
    var fixed := [p, "./" + p, "../" + p, "./plugins/" + b, "../plugins/" + b];
    var lib, dylib := LibVariants(b), DylibVariants(b);
    assert Candidates(p) == fixed + lib + dylib;
    ThreeParts(fixed, lib, dylib);
  }

  /** Where the parts of `f + l + d` sit in the whole. */
  lemma ThreeParts(f: seq<string>, l: seq<string>, d: seq<string>)
    ensures var c := f + l + d;
      && |c| == |f| + |l| + |d|
      && (forall k :: 0 <= k < |f| ==> c[k] == f[k])
      && (forall k :: 0 <= k < |l| ==> c[|f| + k] == l[k])
      && (forall k :: 0 <= k < |d| ==> c[|c| - |d| + k] == d[k])
  {
  }

  /** For `plugins/<b>` the fourth and fifth paths repeat the second and third. */
  lemma PluginsPathRepeats(b: string)
    requires forall k :: 0 <= k < |b| ==> b[k] != '/'
    ensures var c := Candidates("plugins/" + b); c[1] == c[3] && c[2] == c[4]
  {
    var p := "plugins/" + b;
    var i := LastIndexOf(p, '/');
    assert p[7] == '/';
    assert i == 7;
    assert BaseName(p) == b;
    assert "./" + p == "./plugins/" + b;
    assert "../" + p == "../plugins/" + b;
  }

  /** The line a failed candidate adds to the message, if the loader reported an error. */
  function ErrorLine(cand: string, outcome: Probe): string
  {
    match outcome
    case NotOpened(Some(e)) => cand + ": " + e + "\n"
    case NoSymbol(Some(e)) => cand + ": " + e + "\n"
    case _ => ""
  }

  /** The `dlerror` text of a failed probe, if any. */
  function ReportedError(outcome: Probe): Option<string>
    requires !outcome.Loaded?
  {
    if outcome.NotOpened? then outcome.openError else outcome.symbolError
  }

  /** A failed candidate adds `cand: err` and a newline when the loader reported `err`, and nothing otherwise. */
  lemma ErrorLineOf(cand: string, outcome: Probe)
    requires !outcome.Loaded?
    ensures ReportedError(outcome).Some? ==> ErrorLine(cand, outcome) == cand + ": " + ReportedError(outcome).value + "\n"
    ensures ReportedError(outcome).None? ==> ErrorLine(cand, outcome) == ""
  {
  }

  /** The error lines of the candidates `cs`, in order. */
  function Errors(cs: seq<string>, probe: string -> Probe): string
  {
    if cs == [] then "" else Errors(cs[..|cs| - 1], probe) + ErrorLine(cs[|cs| - 1], probe(cs[|cs| - 1]))
  }

  lemma ErrorsStep(cs: seq<string>, i: nat, probe: string -> Probe)
    requires i < |cs|
    ensures Errors(cs[..i + 1], probe) == Errors(cs[..i], probe) + ErrorLine(cs[i], probe(cs[i]))
  {
    assert cs[..i + 1][..i] == cs[..i];
  }

  /** Candidates that fail without an error message leave nothing in the message. */
  lemma {:induction false} ErrorsSilent(cs: seq<string>, probe: string -> Probe)
    requires forall k :: 0 <= k < |cs| ==> probe(cs[k]) in {NotOpened(None), NoSymbol(None)}
    ensures Errors(cs, probe) == ""
  {
    if cs != [] {
      ErrorsSilent(cs[..|cs| - 1], probe);
    }
  }

  /** Index of the first candidate that loads, if any. */
  function FirstLoaded(cs: seq<string>, probe: string -> Probe): (r: Option<nat>)
    ensures r.Some? ==> (r.value < |cs| && probe(cs[r.value]).Loaded?
                         && forall j :: 0 <= j < r.value ==> !probe(cs[j]).Loaded?)
    ensures r.None? <==> forall j :: 0 <= j < |cs| ==> !probe(cs[j]).Loaded?
  {
    if cs == [] then None
    else if probe(cs[0]).Loaded? then Some(0)
    else
      var r := FirstLoaded(cs[1..], probe);
      if r.Some? then Some(r.value + 1) else None
  }

  /** How many of the candidates `cs` the search hands to `dlopen`. */
  function Attempts(cs: seq<string>, probe: string -> Probe): (n: nat)
    ensures n <= |cs|
    ensures n < |cs| ==> 0 < n && probe(cs[n - 1]).Loaded?
    ensures forall j :: 0 <= j < n - 1 ==> !probe(cs[j]).Loaded?
  {
    var r := FirstLoaded(cs, probe);
    if r.Some? then r.value + 1 else |cs|
  }

  /**
   * The outcome of searching the candidates `cs` for `p`: the plugin from the
   * first candidate that loads, or the `runtime_error` naming `p` and listing
   * every reported failure.
   */
  function Outcome(p: string, cs: seq<string>, probe: string -> Probe): (r: Result<string>)
    ensures r.Ok? <==> exists k :: 0 <= k < |cs| && probe(cs[k]).Loaded?
    ensures r.Ok? ==> exists k :: 0 <= k < |cs| && r.value == cs[k] && probe(cs[k]).Loaded?
                                && forall j :: 0 <= j < k ==> !probe(cs[j]).Loaded?
    ensures r.Err? ==> r.error == "Failed to load plugin '" + p + "'. Tried candidates:\n" + Errors(cs, probe)
  {
    var first := FirstLoaded(cs, probe);
    if first.Some? then Ok(cs[first.value])
    else Err("Failed to load plugin '" + p + "'. Tried candidates:\n" + Errors(cs, probe))
  }

  /** Loading stops at the first candidate that loads. */
  lemma FirstLoadedAt(cs: seq<string>, i: nat, probe: string -> Probe)
    requires i < |cs| && probe(cs[i]).Loaded?
    requires forall j :: 0 <= j < i ==> !probe(cs[j]).Loaded?
    ensures FirstLoaded(cs, probe) == Some(i)
  {
  }

  /** The search ends at the first candidate that loads, after handing `dlopen` the candidates up to it. */
  lemma OutcomeLoadedAt(p: string, cs: seq<string>, i: nat, probe: string -> Probe)
    requires i < |cs| && probe(cs[i]).Loaded?
    requires forall j :: 0 <= j < i ==> !probe(cs[j]).Loaded?
    ensures Outcome(p, cs, probe) == Ok(cs[i]) && Attempts(cs, probe) == i + 1
  {
    FirstLoadedAt(cs, i, probe);
  }

  /** When no candidate loads, every candidate is tried and the error lists them all. */
  lemma OutcomeNoneLoaded(p: string, cs: seq<string>, probe: string -> Probe)
    requires forall j :: 0 <= j < |cs| ==> !probe(cs[j]).Loaded?
    ensures Outcome(p, cs, probe) == Err("Failed to load plugin '" + p + "'. Tried candidates:\n" + Errors(cs, probe))
    ensures Attempts(cs, probe) == |cs|
  {
    assert FirstLoaded(cs, probe).None?;
  }

  /**
   * The candidate loop of `load`; `attempts` is the number of candidates it
   * passed to `dlopen`, which are the first `attempts` of `candidates`.
   */
  method Search(p: string, candidates: seq<string>, probe: string -> Probe) returns (r: Result<string>, attempts: nat)
    ensures r == Outcome(p, candidates, probe)
    ensures attempts == Attempts(candidates, probe)
  {
    var lastErrors := "";
    var i := 0;
    while i < |candidates|
      invariant 0 <= i <= |candidates|
      invariant lastErrors == Errors(candidates[..i], probe)
      invariant forall j :: 0 <= j < i ==> !probe(candidates[j]).Loaded?
    {
      var cand := candidates[i];
      var outcome := probe(cand);
      if outcome.Loaded? {
        OutcomeLoadedAt(p, candidates, i, probe);
        r, attempts := Ok(cand), i + 1;
        return;
      }
      var err := ReportedError(outcome);
      ErrorsStep(candidates, i, probe);
      ErrorLineOf(cand, outcome);
      if err.Some? {
        lastErrors := lastErrors + (cand + ": " + err.value + "\n");
      }
      assert forall j :: 0 <= j < i + 1 ==> !probe(candidates[j]).Loaded? by {
        assert !probe(candidates[i]).Loaded?;
      }
      i := i + 1;
    }
    assert candidates[..i] == candidates;
    OutcomeNoneLoaded(p, candidates, probe);
    r, attempts := Err("Failed to load plugin '" + p + "'. Tried candidates:\n" + lastErrors), i;
  }

  /**
   * `load(p)`, also returning how many candidates it passed to `dlopen`:
   * the candidates up to the first that loads, and none after it.
   */
  method Load(p: string, probe: string -> Probe) returns (r: Result<string>, attempts: nat)
    ensures r == Outcome(p, Candidates(p), probe)
    ensures attempts == Attempts(Candidates(p), probe)
  {
    var candidates := BuildCandidates(p);
    r, attempts := Search(p, candidates, probe);
  }
}
