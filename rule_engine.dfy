/**
 * The rule evaluator: a rule `{"if": cond}` is decided against a snapshot of
 * the host (disk and memory usage, which paths exist, the local hour).
 * Conditions are `and` / `or` / `not` nodes, leaf objects keyed `disk`,
 * `cpu`, `memory`, `file` or `time`, or a legacy bare string.  The three
 * exceptions the evaluator can throw are an explicit `Raised` outcome.
 */
module RuleEngine {
  import opened Basics
  import opened Json

  /**
   * What the evaluator reads from the host.  `diskUsed` / `memoryUsed` are the
   * usage percentages, `None` when `statvfs` / `host_statistics` fails.
   */
  datatype Env = Env(diskUsed: Option<real>, memoryUsed: Option<real>, existing: set<string>, hour: int)

  datatype RuleError =
    | NotAString        // a leaf payload that is not a JSON string (type_error)
    | SubstrOutOfRange  // the file leaf text "exists": substr(7) past the end
    | StoiOutOfRange    // a digit run that does not fit an int

  datatype Outcome = Value(b: bool) | Raised(e: RuleError)

  /** The CPU reading the CPU leaf compares against. */
  const CPU_USAGE: real := 60.0

  function Negate(o: Outcome): (r: Outcome)
    ensures o.Value? ==> r == Value(!o.b)
    ensures o.Raised? ==> r == o
  {
    match o
    case Value(b) => Value(!b)
    case Raised(e) => o
  }

  // ---------------------------------------------------------------------
  // The three regular expressions, as deterministic matchers on a suffix.
  // Each character class is disjoint from what follows it, so a pattern
  // matches at a position in at most one way, and greedy scanning finds it.

  /** `>\s*(\d+)%?` at the start of `u`: the value of the digit group. */
  function GtMatch(u: string): Option<nat>
  {
    if u != [] && u[0] == '>' then
      var v := DropSpaces(u[1..]);
      if StartsWithDigit(v) then Some(LeadingValue(v)) else None
    else None
  }

  /** `disk\s*>\s*(\d+)%?` at the start of `u`. */
  function DiskGtMatch(u: string): Option<nat>
  {
    if StartsWith(u, "disk") then GtMatch(DropSpaces(u[4..])) else None
  }

  /** `(\d+):(\d+)` at the start of `u`: the first group's value and the text after the second. */
  function ClockMatch(u: string): Option<(nat, string)>
  {
    if !StartsWithDigit(u) then None
    else
      var w := DropDigits(u);
      if w != [] && w[0] == ':' && StartsWithDigit(w[1..]) then Some((LeadingValue(u), DropDigits(w[1..])))
      else None
  }

  /** `between\s+(\d+):(\d+)\s+and\s+(\d+):(\d+)` at the start of `u`: groups 1 and 3. */
  function BetweenMatch(u: string): Option<(nat, nat)>
  {
    if !(StartsWith(u, "between") && StartsWithSpace(u[7..])) then None
    else
      match ClockMatch(DropSpaces(u[7..]))
      case None => None
      case Some((start, x)) =>
        var y := DropSpaces(x);
        if !(StartsWithSpace(x) && StartsWith(y, "and") && StartsWithSpace(y[3..])) then None
        else
          match ClockMatch(DropSpaces(y[3..]))
          case None => None
          case Some((end, _)) => Some((start, end))
  }

  datatype Pattern = GtPattern | DiskGtPattern | BetweenPattern

  predicate MatchesAt(pat: Pattern, s: string, i: nat)
  {
    i <= |s| &&
    match pat
    case GtPattern => GtMatch(s[i..]).Some?
    case DiskGtPattern => DiskGtMatch(s[i..]).Some?
    case BetweenPattern => BetweenMatch(s[i..]).Some?
  }

  /** The first index from `i` on where `hits` holds. */
  function FirstHit(hits: seq<bool>, i: nat): (r: Option<nat>)
    requires i <= |hits|
    ensures r.Some? ==> i <= r.value < |hits| && hits[r.value]
    decreases |hits| - i
  {
    if i == |hits| then None else if hits[i] then Some(i) else FirstHit(hits, i + 1)
  }

  lemma {:induction false} FirstHitLeftmost(hits: seq<bool>, i: nat)
    requires i <= |hits|
    ensures FirstHit(hits, i).Some? ==> forall q :: i <= q < FirstHit(hits, i).value ==> !hits[q]
    ensures FirstHit(hits, i).None? <==> forall q :: i <= q < |hits| ==> !hits[q]
    decreases |hits| - i
  {
    if i < |hits| && !hits[i] {
      FirstHitLeftmost(hits, i + 1);
    }
  }

  lemma {:induction false} FirstHitFinds(hits: seq<bool>, i: nat, p: nat)
    requires i <= p < |hits| && hits[p]
    requires forall q :: i <= q < p ==> !hits[q]
    ensures FirstHit(hits, i) == Some(p)
    decreases p - i
  {
    if i < p {
      FirstHitFinds(hits, i + 1, p);
    }
  }

  /** Whether `pat` matches at each position `0 ..= |s|` of `s`. */
  function Hits(pat: Pattern, s: string): (r: seq<bool>)
    ensures |r| == |s| + 1 && forall q :: 0 <= q <= |s| ==> r[q] == MatchesAt(pat, s, q)
  {
    seq(|s| + 1, q requires 0 <= q <= |s| => MatchesAt(pat, s, q))
  }

  /** `std::regex_search`: the first position where `pat` matches. */
  function Search(pat: Pattern, s: string): (r: Option<nat>)
    ensures r.Some? ==> r.value <= |s| && MatchesAt(pat, s, r.value)
  {
    FirstHit(Hits(pat, s), 0)
  }

  /** `Search` reports the leftmost match, and no match only when there is none. */
  lemma SearchLeftmost(pat: Pattern, s: string)
    ensures Search(pat, s).Some? ==> forall q :: 0 <= q < Search(pat, s).value ==> !MatchesAt(pat, s, q)
    ensures Search(pat, s).None? <==> forall q :: 0 <= q <= |s| ==> !MatchesAt(pat, s, q)
  {
    FirstHitLeftmost(Hits(pat, s), 0);
  }

  /** A match at `p` with none before it is the one `Search` reports. */
  lemma SearchFinds(pat: Pattern, s: string, p: nat)
    requires p <= |s| && MatchesAt(pat, s, p)
    requires forall q :: 0 <= q < p ==> !MatchesAt(pat, s, q)
    ensures Search(pat, s) == Some(p)
  {
    FirstHitFinds(Hits(pat, s), 0, p);
  }

  /** Capture group 1 of the leftmost `>\s*(\d+)%?` match, as a number. */
  function GtValue(s: string): Option<nat>
  {
    match Search(GtPattern, s)
    case None => None
    case Some(i) => GtMatch(s[i..])
  }

  /** Capture group 1 of the leftmost `disk\s*>\s*(\d+)%?` match. */
  function DiskGtValue(s: string): Option<nat>
  {
    match Search(DiskGtPattern, s)
    case None => None
    case Some(i) => DiskGtMatch(s[i..])
  }

  /** Capture groups 1 and 3 (start and end hour) of the leftmost `between` match. */
  function BetweenHours(s: string): Option<(nat, nat)>
  {
    match Search(BetweenPattern, s)
    case None => None
    case Some(i) => BetweenMatch(s[i..])
  }

  // ---------------------------------------------------------------------
  // Leaf evaluators.

  /** `(used * 100) > stoi(match[1])` after a `> N` search; no match is false. */
  function AboveThreshold(usage: real, text: string): Outcome
  {
    match GtValue(text)
    case None => Value(false)
    case Some(n) => if n > INT_MAX then Raised(StoiOutOfRange) else Value(usage > n as real)
  }

  function Disk(text: string, env: Env): (r: Outcome)
    ensures env.diskUsed.None? || GtValue(text).None? ==> r == Value(false)
    ensures r.Raised? ==> r.e == StoiOutOfRange
    ensures r == Value(true) <==> env.diskUsed.Some? && GtValue(text).Some? && GtValue(text).value <= INT_MAX
                                  && env.diskUsed.value > GtValue(text).value as real
  {
    if env.diskUsed.None? then Value(false) else AboveThreshold(env.diskUsed.value, text)
  }

  function Cpu(text: string): (r: Outcome)
    ensures GtValue(text).None? ==> r == Value(false)
    ensures r.Raised? ==> r.e == StoiOutOfRange
    ensures r == Value(true) <==> GtValue(text).Some? && GtValue(text).value < 60
  {
    AboveThreshold(CPU_USAGE, text)
  }

  function Memory(text: string, env: Env): (r: Outcome)
    ensures env.memoryUsed.None? || GtValue(text).None? ==> r == Value(false)
    ensures r.Raised? ==> r.e == StoiOutOfRange
    ensures r == Value(true) <==> env.memoryUsed.Some? && GtValue(text).Some? && GtValue(text).value <= INT_MAX
                                  && env.memoryUsed.value > GtValue(text).value as real
  {
    if env.memoryUsed.None? then Value(false) else AboveThreshold(env.memoryUsed.value, text)
  }

  function File(text: string, env: Env): (r: Outcome)
    ensures !StartsWith(text, "exists") ==> r == Value(false)
    ensures r.Raised? ==> r.e == SubstrOutOfRange
    ensures r == Value(true) ==> |text| >= 7 && text[7..] in env.existing
  {
    if StartsWith(text, "exists") then
      match Substr(text, 7)
      case None => Raised(SubstrOutOfRange)
      case Some(path) => Value(path in env.existing)
    else Value(false)
  }

  function Time(text: string, env: Env): (r: Outcome)
    ensures BetweenHours(text).None? ==> r == Value(false)
    ensures r.Raised? ==> r.e == StoiOutOfRange
    ensures r == Value(true) ==> BetweenHours(text).Some? && BetweenHours(text).value.0 <= env.hour <= BetweenHours(text).value.1
  {
    match BetweenHours(text)
    case None => Value(false)
    case Some((start, end)) =>
      if start > INT_MAX || end > INT_MAX then Raised(StoiOutOfRange)
      else Value(env.hour >= start && env.hour <= end)
  }

  /** A legacy string condition: only a `disk` mention is looked at. */
  function Simple(text: string, env: Env): (r: Outcome)
    ensures !ContainsText(text, "disk") ==> r == Value(true)
    ensures ContainsText(text, "disk") && env.diskUsed.None? ==> r == Value(false)
    ensures ContainsText(text, "disk") && env.diskUsed.Some? && DiskGtValue(text).None? ==> r == Value(true)
    ensures r.Raised? ==> r.e == StoiOutOfRange
  {
    if ContainsText(text, "disk") then
      if env.diskUsed.None? then Value(false)
      else
        match DiskGtValue(text)
        case None => Value(true)
        case Some(n) => if n > INT_MAX then Raised(StoiOutOfRange) else Value(env.diskUsed.value > n as real)
    else Value(true)
  }

  datatype LeafKind = DiskLeaf | CpuLeaf | MemoryLeaf | FileLeaf | TimeLeaf

  /** A leaf payload converted to a string and handed to its evaluator. */
  function Leaf(kind: LeafKind, payload: Json, env: Env): Outcome
  {
    match AsString(payload)
    case None => Raised(NotAString)
    case Some(text) =>
      match kind
      case DiskLeaf => Disk(text, env)
      case CpuLeaf => Cpu(text)
      case MemoryLeaf => Memory(text, env)
      case FileLeaf => File(text, env)
      case TimeLeaf => Time(text, env)
  }

  /** A leaf object: the first of `disk`, `cpu`, `memory`, `file`, `time` present decides. */
  function Single(c: Json, env: Env): (r: Outcome)
    ensures (!Contains(c, "disk") && !Contains(c, "cpu") && !Contains(c, "memory") && !Contains(c, "file")
             && !Contains(c, "time")) ==> r == Value(true)
    ensures Contains(c, "disk") ==> (r == Raised(NotAString) <==> !Get(c, "disk").Str?)
    ensures r == Raised(NotAString) ==>
      || (Contains(c, "disk") && !Get(c, "disk").Str?)
      || (Contains(c, "cpu") && !Get(c, "cpu").Str?)
      || (Contains(c, "memory") && !Get(c, "memory").Str?)
      || (Contains(c, "file") && !Get(c, "file").Str?)
      || (Contains(c, "time") && !Get(c, "time").Str?)
  {
    if Contains(c, "disk") then Leaf(DiskLeaf, Get(c, "disk"), env)
    else if Contains(c, "cpu") then Leaf(CpuLeaf, Get(c, "cpu"), env)
    else if Contains(c, "memory") then Leaf(MemoryLeaf, Get(c, "memory"), env)
    else if Contains(c, "file") then Leaf(FileLeaf, Get(c, "file"), env)
    else if Contains(c, "time") then Leaf(TimeLeaf, Get(c, "time"), env)
    else Value(true)
  }

  // ---------------------------------------------------------------------
  // The recursive evaluator.

  function Condition(c: Json, env: Env): (r: Outcome)
    ensures !c.Str? && !c.Object? ==> r == Value(true)
    ensures c.Str? && r.Raised? ==> r.e == StoiOutOfRange
    decreases c, 0
  {
    match c
    case Str(text) => Simple(text, env)
    case Object(_) =>
      if Contains(c, "and") then All(Get(c, "and"), 0, env)
      else if Contains(c, "or") then Any(Get(c, "or"), 0, env)
      else if Contains(c, "not") then Negate(Condition(Get(c, "not"), env))
      else Single(c, env)
    case _ => Value(true)
  }

  /** The `and` loop from item `i` on: the first child that is not true decides. */
  function All(v: Json, i: nat, env: Env): (r: Outcome)
    ensures r == Value(true) <==> forall k :: i <= k < |Items(v)| ==> Condition(Items(v)[k], env) == Value(true)
    decreases v, 1, |Items(v)| - i
  {
    var xs := Items(v);
    if i >= |xs| then Value(true)
    else
      var o := Condition(xs[i], env);
      assert xs[i] == Items(v)[i];
      if o != Value(true) then o else All(v, i + 1, env)
  }

  /** The `or` loop from item `i` on: the first child that is not false decides. */
  function Any(v: Json, i: nat, env: Env): (r: Outcome)
    ensures r == Value(false) <==> forall k :: i <= k < |Items(v)| ==> Condition(Items(v)[k], env) == Value(false)
    decreases v, 1, |Items(v)| - i
  {
    var xs := Items(v);
    if i >= |xs| then Value(false)
    else
      var o := Condition(xs[i], env);
      assert xs[i] == Items(v)[i];
      if o != Value(false) then o else Any(v, i + 1, env)
  }

  /** `RuleEngine::evaluate`. */
  function Evaluate(rule: Json, env: Env): (r: Outcome)
    ensures !Contains(rule, "if") ==> r == Value(true)
  {
    if Contains(rule, "if") then Condition(Get(rule, "if"), env) else Value(true)
  }

  // ---------------------------------------------------------------------
  // Properties of the evaluator.

  /** A rule without `"if"`, such as the null default rule, is satisfied. */
  lemma DefaultRuleSatisfied(env: Env)
    ensures Evaluate(Null, env) == Value(true)
    ensures Evaluate(Object([]), env) == Value(true)
  {
  }

  /** The outcome of evaluating each of `xs`, in order. */
  function Results(xs: seq<Json>, env: Env): (r: seq<Outcome>)
    ensures |r| == |xs| && forall k :: 0 <= k < |xs| ==> r[k] == Condition(xs[k], env)
  {
    seq(|xs|, k requires 0 <= k < |xs| => Condition(xs[k], env))
  }

  /** Left-to-right conjunction of outcomes: the first that is not true, else true. */
  function Conj(os: seq<Outcome>): Outcome
  {
    if os == [] then Value(true) else if os[0] != Value(true) then os[0] else Conj(os[1..])
  }

  /** Left-to-right disjunction of outcomes: the first that is not false, else false. */
  function Disj(os: seq<Outcome>): Outcome
  {
    if os == [] then Value(false) else if os[0] != Value(false) then os[0] else Disj(os[1..])
  }

  lemma {:induction false} AllIsConj(v: Json, i: nat, env: Env)
    requires i <= |Items(v)|
    ensures All(v, i, env) == Conj(Results(Items(v), env)[i..])
    decreases |Items(v)| - i
  {
    var xs := Items(v);
    var os := Results(xs, env);
    if i < |xs| {
      AllIsConj(v, i + 1, env);
      assert os[i..][1..] == os[i + 1..];
    }
  }

  lemma {:induction false} AnyIsDisj(v: Json, i: nat, env: Env)
    requires i <= |Items(v)|
    ensures Any(v, i, env) == Disj(Results(Items(v), env)[i..])
    decreases |Items(v)| - i
  {
    var xs := Items(v);
    var os := Results(xs, env);
    if i < |xs| {
      AnyIsDisj(v, i + 1, env);
      assert os[i..][1..] == os[i + 1..];
    }
  }

  /** `Conj` is true iff every outcome is true. */
  lemma {:induction false} ConjTrue(os: seq<Outcome>)
    ensures Conj(os) == Value(true) <==> forall k :: 0 <= k < |os| ==> os[k] == Value(true)
  {
    if os != [] {
      ConjTrue(os[1..]);
      assert forall k :: 1 <= k < |os| ==> os[k] == os[1..][k - 1];
    }
  }

  /**
   * Short-circuit: `Conj` is the first outcome that is not true (false or an
   * exception); the outcomes after it play no part.
   */
  lemma {:induction false} ConjFirstNotTrue(os: seq<Outcome>, k: nat)
    requires k < |os| && os[k] != Value(true)
    requires forall j :: 0 <= j < k ==> os[j] == Value(true)
    ensures Conj(os) == os[k]
  {
    if k > 0 {
      assert forall j :: 0 <= j < k - 1 ==> os[1..][j] == os[j + 1];
      ConjFirstNotTrue(os[1..], k - 1);
    }
  }

  /** `Disj` is false iff every outcome is false. */
  lemma {:induction false} DisjFalse(os: seq<Outcome>)
    ensures Disj(os) == Value(false) <==> forall k :: 0 <= k < |os| ==> os[k] == Value(false)
  {
    if os != [] {
      DisjFalse(os[1..]);
      assert forall k :: 1 <= k < |os| ==> os[k] == os[1..][k - 1];
    }
  }

  /** Short-circuit: `Disj` is the first outcome that is not false (true or an exception). */
  lemma {:induction false} DisjFirstNotFalse(os: seq<Outcome>, k: nat)
    requires k < |os| && os[k] != Value(false)
    requires forall j :: 0 <= j < k ==> os[j] == Value(false)
    ensures Disj(os) == os[k]
  {
    if k > 0 {
      assert forall j :: 0 <= j < k - 1 ==> os[1..][j] == os[j + 1];
      DisjFirstNotFalse(os[1..], k - 1);
    }
  }

  /** An `and` node yields the left-to-right conjunction of its children's outcomes. */
  lemma AndNode(c: Json, env: Env)
    requires Contains(c, "and")
    ensures Condition(c, env) == Conj(Results(Items(Get(c, "and")), env))
  {
    AllIsConj(Get(c, "and"), 0, env);
  }

  /** An `or` node (without `and`) yields the left-to-right disjunction of its children's outcomes. */
  lemma OrNode(c: Json, env: Env)
    requires Contains(c, "or") && !Contains(c, "and")
    ensures Condition(c, env) == Disj(Results(Items(Get(c, "or")), env))
  {
    AnyIsDisj(Get(c, "or"), 0, env);
  }

  /** The empty `and` is true; the empty `or` is false; a null child list counts as empty. */
  lemma EmptyJunctions(env: Env)
    ensures Condition(Object([("and", Array([]))]), env) == Value(true)
    ensures Condition(Object([("or", Array([]))]), env) == Value(false)
    ensures Condition(Object([("and", Null)]), env) == Value(true)
    ensures Condition(Object([("or", Null)]), env) == Value(false)
  {
    assert Contains(Object([("and", Array([]))]), "and");
    assert Contains(Object([("or", Array([]))]), "or");
    assert Contains(Object([("and", Null)]), "and");
    assert Contains(Object([("or", Null)]), "or");
  }

  /** Key precedence: with an `and` member every other member is ignored. */
  lemma AndPrecedes(c: Json, env: Env)
    requires Contains(c, "and")
    ensures Condition(c, env) == Condition(Object([("and", Get(c, "and"))]), env)
  {
    assert Contains(Object([("and", Get(c, "and"))]), "and");
  }

  /** Without `and`, an `or` member overrides `not` and every leaf key. */
  lemma OrPrecedes(c: Json, env: Env)
    requires Contains(c, "or") && !Contains(c, "and")
    ensures Condition(c, env) == Condition(Object([("or", Get(c, "or"))]), env)
  {
    var d := Object([("or", Get(c, "or"))]);
    assert Contains(d, "or");
    assert !Contains(d, "and");
  }

  /** Without `and` / `or`, a `not` member negates its child and overrides every leaf key. */
  lemma NotNegates(c: Json, env: Env)
    requires Contains(c, "not") && !Contains(c, "and") && !Contains(c, "or")
    ensures Condition(c, env) == Negate(Condition(Get(c, "not"), env))
    ensures Condition(c, env).Value? ==> Condition(c, env) == Value(!Condition(Get(c, "not"), env).b)
  {
  }

  /** `{"not": {"not": x}}` behaves exactly as `x`. */
  lemma DoubleNegation(x: Json, env: Env)
    ensures Condition(Object([("not", Object([("not", x)]))]), env) == Condition(x, env)
  {
    var inner := Object([("not", x)]);
    var outer := Object([("not", inner)]);
    assert Contains(inner, "not") && !Contains(inner, "and") && !Contains(inner, "or");
    assert Contains(outer, "not") && !Contains(outer, "and") && !Contains(outer, "or");
    assert Get(outer, "not") == inner;
    assert Get(inner, "not") == x;
  }

  /** A condition that is neither a string nor an object (null, bool, number, array) is true. */
  lemma OtherNodesTrue(c: Json, env: Env)
    requires !c.Str? && !c.Object?
    ensures Condition(c, env) == Value(true)
  {
  }

  /** The leaf keys, highest precedence first. */
  const LEAF_KEYS: seq<string> := ["disk", "cpu", "memory", "file", "time"]
  const LEAF_KINDS: seq<LeafKind> := [DiskLeaf, CpuLeaf, MemoryLeaf, FileLeaf, TimeLeaf]

  /**
   * A leaf object is decided by its highest-precedence leaf key alone, and an
   * object with no operator key and no leaf key is true.
   */
  lemma LeafPrecedence(c: Json, env: Env, k: nat)
    requires c.Object? && !Contains(c, "and") && !Contains(c, "or") && !Contains(c, "not")
    requires k <= |LEAF_KEYS|
    requires forall j :: 0 <= j < k ==> !Contains(c, LEAF_KEYS[j])
    requires k < |LEAF_KEYS| ==> Contains(c, LEAF_KEYS[k])
    ensures k == |LEAF_KEYS| ==> Condition(c, env) == Value(true)
    ensures k < |LEAF_KEYS| ==> Condition(c, env) == Leaf(LEAF_KINDS[k], Get(c, LEAF_KEYS[k]), env)
  {
    assert k > 0 ==> !Contains(c, LEAF_KEYS[0]);
    assert k > 1 ==> !Contains(c, LEAF_KEYS[1]);
    assert k > 2 ==> !Contains(c, LEAF_KEYS[2]);
    assert k > 3 ==> !Contains(c, LEAF_KEYS[3]);
    assert k > 4 ==> !Contains(c, LEAF_KEYS[4]);
  }

  // ---------------------------------------------------------------------
  // Leaf texts.

  /** Text that does not start with white space is left alone by `DropSpaces`. */
  lemma NoSpacesToDrop(u: string)
    requires !StartsWithSpace(u)
    ensures DropSpaces(u) == u
  {
  }

  /** `> N` after optional white space is read as N. */
  lemma GtMatchOf(ws: string, n: nat, rest: string)
    requires AllSpaces(ws)
    requires !StartsWithDigit(rest)
    ensures GtMatch(">" + (ws + (Decimal(n) + rest))) == Some(n)
  {
    var u := ">" + (ws + (Decimal(n) + rest));
    assert u[1..] == ws + (Decimal(n) + rest);
    DropSpacesOver(ws, Decimal(n) + rest);
    assert (Decimal(n) + rest)[0] == Decimal(n)[0];
    NoSpacesToDrop(Decimal(n) + rest);
    DecimalOver(n, rest);
  }

  /**
   * `>\s*(\d+)%?` reads N from the first `>` that is followed by optional
   * white space and a digit.
   */
  lemma GtValueAt(pre: string, ws: string, n: nat, rest: string)
    requires forall k :: 0 <= k < |pre| ==> pre[k] != '>'
    requires AllSpaces(ws)
    requires !StartsWithDigit(rest)
    ensures GtValue(pre + (">" + (ws + (Decimal(n) + rest)))) == Some(n)
  {
    var u := ">" + (ws + (Decimal(n) + rest));
    var s := pre + u;
    assert s[|pre|..] == u;
    GtMatchOf(ws, n, rest);
    forall q | 0 <= q < |pre| ensures !MatchesAt(GtPattern, s, q) {
      assert s[q..][0] == pre[q];
    }
    SearchFinds(GtPattern, s, |pre|);
  }

  /** A `disk > N` match at `q` has a `>` at or after `q`. */
  lemma DiskGtHasChevron(s: string, q: nat)
    requires q <= |s|
    ensures DiskGtMatch(s[q..]).Some? ==> exists j :: q <= j < |s| && s[j] == '>'
  {
    var u := s[q..];
    if StartsWith(u, "disk") {
      var w := u[4..];
      var v := DropSpaces(w);
      DropSpacesSuffix(w);
      if v != [] {
        assert v[0] == s[q + 4 + |w| - |v|];
      }
    }
  }

  /** Without a `>` there is no threshold. */
  lemma NoGtValue(s: string)
    requires forall k :: 0 <= k < |s| ==> s[k] != '>'
    ensures GtValue(s) == None
    ensures DiskGtValue(s) == None
  {
    forall q | 0 <= q <= |s| ensures !MatchesAt(GtPattern, s, q) && !MatchesAt(DiskGtPattern, s, q) {
      if q < |s| {
        assert s[q..][0] == s[q];
      }
      DiskGtHasChevron(s, q);
    }
    SearchLeftmost(GtPattern, s);
    SearchLeftmost(DiskGtPattern, s);
  }

  /**
   * The CPU leaf is true iff N < 60; the disk and memory leaves are true iff
   * their reading is available and strictly above N.
   */
  lemma ThresholdLeaves(pre: string, ws: string, n: nat, rest: string, env: Env)
    requires forall k :: 0 <= k < |pre| ==> pre[k] != '>'
    requires AllSpaces(ws)
    requires !StartsWithDigit(rest)
    requires n <= INT_MAX
    ensures var t := pre + (">" + (ws + (Decimal(n) + rest)));
      && Cpu(t) == Value(n < 60)
      && Disk(t, env) == Value(env.diskUsed.Some? && env.diskUsed.value > n as real)
      && Memory(t, env) == Value(env.memoryUsed.Some? && env.memoryUsed.value > n as real)
  {
    GtValueAt(pre, ws, n, rest);
  }

  /** A threshold too large for an `int` makes `stoi` throw out of the leaf. */
  lemma ThresholdOverflow(pre: string, ws: string, n: nat, rest: string, env: Env)
    requires forall k :: 0 <= k < |pre| ==> pre[k] != '>'
    requires AllSpaces(ws)
    requires !StartsWithDigit(rest)
    requires n > INT_MAX
    ensures var t := pre + (">" + (ws + (Decimal(n) + rest)));
      && Cpu(t) == Raised(StoiOutOfRange)
      && (env.diskUsed.Some? ==> Disk(t, env) == Raised(StoiOutOfRange))
      && (env.memoryUsed.Some? ==> Memory(t, env) == Raised(StoiOutOfRange))
  {
    GtValueAt(pre, ws, n, rest);
  }

  /** Disk, CPU and memory leaf texts without a threshold are false. */
  lemma NoThresholdFalse(t: string, env: Env)
    requires forall k :: 0 <= k < |t| ==> t[k] != '>'
    ensures Cpu(t) == Value(false) && Disk(t, env) == Value(false) && Memory(t, env) == Value(false)
  {
    NoGtValue(t);
  }

  /**
   * The legacy string form is true when it mentions `disk` without a threshold
   * (and the disk can be read), where the object form `{"disk": t}` is false.
   */
  lemma LegacyDiskWithoutThreshold(t: string, env: Env)
    requires ContainsText(t, "disk")
    requires forall k :: 0 <= k < |t| ==> t[k] != '>'
    requires env.diskUsed.Some?
    ensures Condition(Str(t), env) == Value(true)
    ensures Condition(Object([("disk", Str(t))]), env) == Value(false)
  {
    NoGtValue(t);
    var c := Object([("disk", Str(t))]);
    assert Contains(c, "disk") && !Contains(c, "and") && !Contains(c, "or") && !Contains(c, "not");
    assert Get(c, "disk") == Str(t);
  }

  /** A legacy string that does not mention `disk` is true. */
  lemma LegacyWithoutDisk(t: string, env: Env)
    requires !ContainsText(t, "disk")
    ensures Condition(Str(t), env) == Value(true)
  {
  }

  /** `disk > N`, with optional white space around `>`, is read as N. */
  lemma DiskGtValueAt(ws1: string, ws2: string, n: nat, rest: string)
    requires AllSpaces(ws1) && AllSpaces(ws2)
    requires !StartsWithDigit(rest)
    ensures DiskGtValue("disk" + (ws1 + (">" + (ws2 + (Decimal(n) + rest))))) == Some(n)
  {
    var g := ">" + (ws2 + (Decimal(n) + rest));
    var s := "disk" + (ws1 + g);
    assert s[0..] == s && s[..4] == "disk" && s[4..] == ws1 + g;
    DropSpacesOver(ws1, g);
    NoSpacesToDrop(g);
    GtMatchOf(ws2, n, rest);
    SearchFinds(DiskGtPattern, s, 0);
  }

  lemma LegacySimple(t: string, n: nat, env: Env)
    requires ContainsText(t, "disk") && DiskGtValue(t) == Some(n) && n <= INT_MAX
    ensures Condition(Str(t), env) == Value(env.diskUsed.Some? && env.diskUsed.value > n as real)
  {
  }

  /** `disk > N` in the legacy form compares like the disk leaf. */
  lemma LegacyDiskThreshold(ws1: string, ws2: string, n: nat, rest: string, env: Env)
    requires AllSpaces(ws1) && AllSpaces(ws2)
    requires !StartsWithDigit(rest)
    requires n <= INT_MAX
    ensures Condition(Str("disk" + (ws1 + (">" + (ws2 + (Decimal(n) + rest))))), env)
      == Value(env.diskUsed.Some? && env.diskUsed.value > n as real)
  {
    var t := "disk" + (ws1 + (">" + (ws2 + (Decimal(n) + rest))));
    DiskGtValueAt(ws1, ws2, n, rest);
    assert t[0..] == t;
    LegacySimple(t, n, env);
  }

  /**
   * The file leaf is true iff the text starts with `exists` and the path from
   * index 7 on exists; the text `exists` alone makes `substr(7)` throw.
   */
  lemma FileLeafMeaning(t: string, env: Env)
    ensures File(t, env) == Value(true) <==> StartsWith(t, "exists") && |t| >= 7 && t[7..] in env.existing
    ensures File(t, env).Raised? <==> t == "exists"
  {
  }

  /** `exists <path>` tests exactly that path. */
  lemma FileExists(path: string, env: Env)
    ensures File("exists " + path, env) == Value(path in env.existing)
  {
    var t := "exists " + path;
    assert t[..6] == "exists";
    assert t[7..] == path;
  }

  /** `H:M` followed by a non-digit is read as the hour H and the text after M. */
  lemma ClockOver(h: nat, m: nat, rest: string)
    requires !StartsWithDigit(rest)
    ensures ClockMatch(Decimal(h) + (":" + (Decimal(m) + rest))) == Some((h, rest))
  {
    var w := ":" + (Decimal(m) + rest);
    assert w[0] == ':' && w[1..] == Decimal(m) + rest;
    assert (Decimal(m) + rest)[0] == Decimal(m)[0];
    assert (Decimal(h) + w)[0] == Decimal(h)[0];
    DecimalOver(h, w);
    DecimalOver(m, rest);
  }

  /** One space, then text that does not start with white space. */
  lemma OneSpace(u: string)
    requires !StartsWithSpace(u)
    ensures StartsWithSpace(" " + u) && DropSpaces(" " + u) == u
  {
    assert (" " + u)[1..] == u;
  }

  /** The tail ` and C:D` of a window. */
  lemma WindowEnd(c: nat, d: nat)
    ensures var x := " " + ("and" + (" " + (Decimal(c) + (":" + Decimal(d)))));
      && StartsWithSpace(x) && StartsWith(DropSpaces(x), "and")
      && StartsWithSpace(DropSpaces(x)[3..])
      && ClockMatch(DropSpaces(DropSpaces(x)[3..])) == Some((c, []))
  {
    var z := Decimal(c) + (":" + Decimal(d));
    var y := "and" + (" " + z);
    assert Decimal(d) + [] == Decimal(d);
    ClockOver(c, d, []);
    assert z[0] == Decimal(c)[0];
    OneSpace(y);
    assert y[..3] == "and" && y[3..] == " " + z;
    OneSpace(z);
  }

  /** The text `between A:B and C:D`. */
  function WindowText(a: nat, b: nat, c: nat, d: nat): string
  {
    "between" + (" " + (Decimal(a) + (":" + (Decimal(b) +
      (" " + ("and" + (" " + (Decimal(c) + (":" + Decimal(d))))))))))
  }

  /** `between A:B and C:D` is matched at its start, with A and C as the hours. */
  lemma WindowHours(a: nat, b: nat, c: nat, d: nat)
    ensures BetweenHours(WindowText(a, b, c, d)) == Some((a, c))
  {
    var x := " " + ("and" + (" " + (Decimal(c) + (":" + Decimal(d)))));
    var v := Decimal(a) + (":" + (Decimal(b) + x));
    var t := WindowText(a, b, c, d);
    assert t == "between" + (" " + v);
    assert t[0..] == t && t[..7] == "between" && t[7..] == " " + v;
    assert v[0] == Decimal(a)[0];
    OneSpace(v);
    assert x[0] == ' ';
    ClockOver(a, b, x);
    WindowEnd(c, d);
    SearchFinds(BetweenPattern, t, 0);
  }

  lemma TimeOfWindow(t: string, start: nat, end: nat, env: Env)
    requires BetweenHours(t) == Some((start, end)) && start <= INT_MAX && end <= INT_MAX
    ensures Time(t, env) == Value(start <= env.hour <= end)
  {
  }

  /**
   * `between A:B and C:D` is true iff A <= hour <= C: the minutes play no
   * part, and a window with A > C is never true.
   */
  lemma TimeWindow(a: nat, b: nat, c: nat, d: nat, env: Env)
    requires a <= INT_MAX && c <= INT_MAX
    ensures Time(WindowText(a, b, c, d), env) == Value(a <= env.hour <= c)
    ensures a > c ==> Time(WindowText(a, b, c, d), env) == Value(false)
  {
    WindowHours(a, b, c, d);
    TimeOfWindow(WindowText(a, b, c, d), a, c, env);
  }

  /** A time text without a `between` window is false. */
  lemma NoWindowFalse(t: string, env: Env)
    requires !ContainsText(t, "between")
    ensures Time(t, env) == Value(false)
  {
    SearchLeftmost(BetweenPattern, t);
  }
}
