/**
 * `PathUtils::expandAndNormalizePath`: a leading `~` or `~/` is replaced by
 * the home directory, then the path is made absolute and lexically
 * normalised.
 *
 * The home directory comes from two inputs, `HOME` (`getenv`) and the
 * password database entry (`getpwuid(getuid())->pw_dir`), either of which may
 * be missing. Making the path absolute and normalising it is an oracle
 * `normalize` that may throw (`Err`).
 */
module PathUtils {
  import opened Basics

  /** The home directory: `HOME` when it is set, else the password database entry. */
  function HomeDir(homeVar: Option<string>, pwDir: Option<string>): (r: Option<string>)
    ensures homeVar.Some? ==> r == homeVar
    ensures homeVar.None? ==> r == pwDir
  {
    if homeVar.Some? then homeVar else pwDir
  }

  /** The tilde step on a non-empty path. */
  function ExpandTilde(p: string, home: Option<string>): (r: string)
    requires p != []
    ensures p[0] != '~' || home.None? ==> r == p
    ensures p[0] == '~' && home.Some? && |p| >= 2 && p[1] != '/' ==> r == p
    ensures p[0] == '~' && home.Some? && (|p| == 1 || p[1] == '/') ==> r == home.value + p[1..]
  {
    if p[0] == '~' && home.Some? then
      if |p| == 1 then home.value
      else if p[1] == '/' then home.value + p[1..]
      else p
    else p
  }

  /** `expandAndNormalizePath(input)`. */
  function ExpandAndNormalizePath(input: string, homeVar: Option<string>, pwDir: Option<string>,
                                  normalize: string -> Result<string>): (r: string)
    ensures input == [] ==> r == []
    ensures input != [] ==>
      var home := HomeDir(homeVar, pwDir);
      var x := if input[0] == '~' && home.Some? && (|input| == 1 || input[1] == '/')
               then home.value + input[1..] else input;
      r == (if normalize(x).Ok? then normalize(x).value else x)
  {
    if input == [] then input
    else
      var home := HomeDir(homeVar, pwDir);
      var p := ExpandTilde(input, home);
      assert |input| == 1 ==> input[1..] == [];
      assert p == if input[0] == '~' && home.Some? && (|input| == 1 || input[1] == '/')
                  then home.value + input[1..] else input;
      match normalize(p)
      case Ok(q) => q
      case Err(_) => p
  }

  /** The empty path comes back unchanged, without normalisation. */
  lemma EmptyUnchanged(homeVar: Option<string>, pwDir: Option<string>, normalize: string -> Result<string>)
    ensures ExpandAndNormalizePath([], homeVar, pwDir, normalize) == []
  {
  }

  /** `~` is the home directory, and `~/rest` is `rest` under it. */
  lemma TildeExpands(rest: string, home: string)
    ensures ExpandTilde("~", Some(home)) == home
    ensures ExpandTilde("~/" + rest, Some(home)) == home + "/" + rest
  {
    assert ("~/" + rest)[1..] == "/" + rest;
  }

  /** `~name` (another user's home) is not expanded. */
  lemma OtherUserKept(p: string, home: Option<string>)
    requires |p| >= 2 && p[0] == '~' && p[1] != '/'
    ensures ExpandTilde(p, home) == p
  {
  }

  /** Without a home directory the tilde stays. */
  lemma NoHomeKept(p: string, homeVar: Option<string>, pwDir: Option<string>)
    requires p != [] && homeVar.None? && pwDir.None?
    ensures ExpandTilde(p, HomeDir(homeVar, pwDir)) == p
  {
  }

  /** A path without a leading tilde only goes through normalisation. */
  lemma NoTildeOnlyNormalised(input: string, homeVar: Option<string>, pwDir: Option<string>,
                              normalize: string -> Result<string>)
    requires input != [] && input[0] != '~'
    ensures ExpandAndNormalizePath(input, homeVar, pwDir, normalize)
            == (if normalize(input).Ok? then normalize(input).value else input)
  {
  }

  /** When normalisation throws, the tilde-expanded path is returned. */
  lemma NormaliseFailureKeepsExpansion(input: string, homeVar: Option<string>, pwDir: Option<string>,
                                       normalize: string -> Result<string>)
    requires input != []
    requires normalize(ExpandTilde(input, HomeDir(homeVar, pwDir))).Err?
    ensures ExpandAndNormalizePath(input, homeVar, pwDir, normalize) == ExpandTilde(input, HomeDir(homeVar, pwDir))
  {
  }

  /**
   * The expansion only ever rewrites the leading `~`: what it returns is
   * either the input, or the home directory followed by the input minus its
   * tilde.
   */
  lemma ExpansionShape(p: string, home: Option<string>)
    requires p != []
    ensures var e := ExpandTilde(p, home);
      || e == p
      || (home.Some? && p[0] == '~' && e == home.value + p[1..] && (|p| == 1 || p[1] == '/'))
  {
  }

  /** Expanding twice is expanding once, when the home directory does not itself start with `~`. */
  lemma ExpandIdempotent(p: string, home: Option<string>)
    requires p != []
    requires home.Some? && home.value != [] ==> home.value[0] != '~'
    requires home.Some? && home.value == [] ==> p != "~"
    ensures var e := ExpandTilde(p, home); e != [] && ExpandTilde(e, home) == e
  {
    var e := ExpandTilde(p, home);
    if p[0] == '~' && home.Some? && |p| >= 2 && p[1] == '/' {
      if home.value == [] {
        assert e == p[1..] && e[0] == '/';
      } else {
        assert e[0] == home.value[0];
      }
    }
  }
}
