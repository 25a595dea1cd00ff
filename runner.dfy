/**
 * The configuration-file discovery of the runner: findConfigFile walks from the
 * working directory up to the file-system root looking for a named file, and
 * Run picks the Prettier configuration from --config, --no-config or the
 * first of the conventional file names found upward.
 */
module Runner {
  import opened Wrappers
  import opened Config

  /** The command-line arguments of a run. */
  datatype RunArgs = RunArgs(
    cwd: string,
    patterns: seq<string>,
    config: string,
    noConfig: bool,
    noEditorConfig: bool,
    check: bool,
    ignorePaths: seq<string>,
    ignoreUnknown: bool,
    write: bool,
    withNodeModules: bool,
    noErrorOnUnmatchedPattern: bool)

  /**
   * An absolute, cleaned directory as its sequence of path elements:
   * [] is "/", ["home", "me"] is "/home/me".
   */
  type AbsDir = seq<string>

  // "/a/b" for ["a", "b"]; the empty string for [].
  function Elements(d: AbsDir): string {
    if d == [] then "" else Elements(d[..|d| - 1]) + "/" + d[|d| - 1]
  }

  /** filepath.Join(dir, name) for an absolute dir and a plain file name. */
  function JoinName(dir: AbsDir, name: string): (p: string)
    ensures p != ""
  {
    Elements(dir + [name])
  }

  /** filepath.Dir on an absolute directory: the root is its own parent. */
  function Parent(dir: AbsDir): (p: AbsDir)
    ensures dir == [] ==> p == dir
    ensures dir != [] ==> |p| == |dir| - 1 && p == dir[..|dir| - 1]
  {
    if dir == [] then [] else dir[..|dir| - 1]
  }

  /** The file name found by looking in dir and then in each of its ancestors; "" when none has it. */
  function LookupFrom(dir: AbsDir, name: string, statOk: string -> bool): string
    decreases |dir|
  {
    if statOk(JoinName(dir, name)) then JoinName(dir, name)
    else if Parent(dir) == dir then ""
    else LookupFrom(Parent(dir), name, statOk)
  }

  /** What findConfigFile(cwd, name) returns, for an Abs that may fail and a Stat that says whether a path exists. */
  function Lookup(cwd: string, name: string, abs: string -> Option<AbsDir>, statOk: string -> bool): string {
    match abs(cwd)
    case None => ""
    case Some(dir) => LookupFrom(dir, name, statOk)
  }

  /** findConfigFile: the loop moves to a strictly shorter parent until the root. */
  method FindConfigFile(cwd: string, name: string, abs: string -> Option<AbsDir>, statOk: string -> bool) returns (r: string)
    ensures r == Lookup(cwd, name, abs, statOk)
  {
    var d := abs(cwd);
    if d.None? {
      return "";
    }
    var dir := d.value;
    while true
      invariant LookupFrom(dir, name, statOk) == Lookup(cwd, name, abs, statOk)
      decreases |dir|
    {
      if statOk(JoinName(dir, name)) {
        return JoinName(dir, name);
      }
      var parent := Parent(dir);
      if parent == dir {
        return "";
      }
      dir := parent;
    }
  }

  /** The lookup answers "" exactly when neither dir nor any of its ancestors holds the file. */
  lemma {:induction false} LookupNotFound(dir: AbsDir, name: string, statOk: string -> bool)
    ensures LookupFrom(dir, name, statOk) == ""
      <==> forall k | 0 <= k <= |dir| :: !statOk(JoinName(dir[..k], name))
    decreases |dir|
  {
    assert dir[..|dir|] == dir;
    if !statOk(JoinName(dir, name)) && dir != [] {
      var p := Parent(dir);
      LookupNotFound(p, name, statOk);
      assert forall k | 0 <= k <= |p| :: p[..k] == dir[..k];
    }
  }

  /** Ancestor k of dir, dir[..k], holds the file and no nearer one does. */
  predicate NearestHolder(dir: AbsDir, name: string, statOk: string -> bool, k: nat) {
    k <= |dir| && statOk(JoinName(dir[..k], name))
    && forall j | k < j <= |dir| :: !statOk(JoinName(dir[..j], name))
  }

  lemma NearestHolderOfParent(dir: AbsDir, name: string, statOk: string -> bool, k: nat)
    requires dir != [] && !statOk(JoinName(dir, name))
    requires NearestHolder(Parent(dir), name, statOk, k)
    ensures NearestHolder(dir, name, statOk, k)
  {
    var p := Parent(dir);
    assert p[..k] == dir[..k];
    forall j | k < j <= |dir| ensures !statOk(JoinName(dir[..j], name)) {
      if j < |dir| {
        assert p[..j] == dir[..j];
      } else {
        assert dir[..j] == dir;
      }
    }
  }

  /**
   * Otherwise it answers the file in the nearest ancestor holding it, dir itself
   * counting as the nearest.
   */
  lemma {:induction false} LookupFindsNearest(dir: AbsDir, name: string, statOk: string -> bool)
    requires LookupFrom(dir, name, statOk) != ""
    ensures exists k: nat :: NearestHolder(dir, name, statOk, k) && LookupFrom(dir, name, statOk) == JoinName(dir[..k], name)
    decreases |dir|
  {
    if statOk(JoinName(dir, name)) {
      assert dir[..|dir|] == dir;
      assert NearestHolder(dir, name, statOk, |dir|);
    } else {
      var p := Parent(dir);
      LookupFindsNearest(p, name, statOk);
      var k: nat :| NearestHolder(p, name, statOk, k) && LookupFrom(p, name, statOk) == JoinName(p[..k], name);
      NearestHolderOfParent(dir, name, statOk, k);
      assert p[..k] == dir[..k];
    }
  }

  /** The Prettier configuration file names Run looks for, in order. */
  const ConfigNames: seq<string> := [".prettierrc", ".prettierrc.json", ".prettierrc.yaml", ".prettierrc.yml", ".prettierrc.toml"]

  /** The path of the first name in names that some ancestor holds, or None. */
  function FirstFound(names: seq<string>, cwd: string, abs: string -> Option<AbsDir>, statOk: string -> bool): Option<string> {
    if names == [] then None
    else if Lookup(cwd, names[0], abs, statOk) != "" then Some(Lookup(cwd, names[0], abs, statOk))
    else FirstFound(names[1..], cwd, abs, statOk)
  }

  /** loadConfigFile(path): the decoded configuration or the error message. */
  type Loader = string -> Result<map<string, Value>, string>

  /** The configuration Run continues with, or the error it returns. */
  function SelectedConfig(args: RunArgs, abs: string -> Option<AbsDir>, statOk: string -> bool, load: Loader): Result<map<string, Value>, string> {
    if args.config != "" then load(args.config)
    else if args.noConfig then Ok(map[])
    else
      match FirstFound(ConfigNames, args.cwd, abs, statOk)
      case None => Ok(map[])
      case Some(p) => load(p)
  }

  /** The switch that picks the Prettier configuration in Run. */
  method SelectConfig(args: RunArgs, abs: string -> Option<AbsDir>, statOk: string -> bool, load: Loader)
    returns (r: Result<map<string, Value>, string>)
    ensures r == SelectedConfig(args, abs, statOk, load)
  {
    var pCfg: map<string, Value> := map[];
    if args.config != "" {
      var cfg := load(args.config);
      if cfg.Err? {
        return cfg;
      }
      pCfg := cfg.value;
    } else if args.noConfig {
    } else {
      var names := ConfigNames;
      var i := 0;
      while i < |names|
        invariant 0 <= i <= |names|
        invariant FirstFound(names[i..], args.cwd, abs, statOk) == FirstFound(names, args.cwd, abs, statOk)
        invariant pCfg == map[]
      {
        var p := FindConfigFile(args.cwd, names[i], abs, statOk);
        if p != "" {
          var cfg := load(p);
          if cfg.Err? {
            return cfg;
          }
          pCfg := cfg.value;
          break;
        }
        assert names[i..][1..] == names[i + 1..];
        i := i + 1;
      }
    }
    return Ok(pCfg);
  }

  /**
   * FirstFound answers the path of name i exactly when name i is found and no
   * earlier name is, however near the later names are found.
   */
  lemma {:induction false} FirstFoundIsFirst(names: seq<string>, cwd: string, abs: string -> Option<AbsDir>, statOk: string -> bool, i: nat)
    requires i < |names|
    requires Lookup(cwd, names[i], abs, statOk) != ""
    requires forall j | 0 <= j < i :: Lookup(cwd, names[j], abs, statOk) == ""
    ensures FirstFound(names, cwd, abs, statOk) == Some(Lookup(cwd, names[i], abs, statOk))
  {
    if i > 0 {
      assert Lookup(cwd, names[0], abs, statOk) == "";
      forall j | 0 <= j < i - 1 ensures Lookup(cwd, names[1..][j], abs, statOk) == "" {
        assert names[1..][j] == names[j + 1];
      }
      assert names[1..][i - 1] == names[i];
      FirstFoundIsFirst(names[1..], cwd, abs, statOk, i - 1);
    }
  }

  /** Nothing is found exactly when no name is found. */
  lemma {:induction false} FirstFoundNone(names: seq<string>, cwd: string, abs: string -> Option<AbsDir>, statOk: string -> bool)
    ensures FirstFound(names, cwd, abs, statOk) == None <==> forall j | 0 <= j < |names| :: Lookup(cwd, names[j], abs, statOk) == ""
  {
    if names != [] {
      FirstFoundNone(names[1..], cwd, abs, statOk);
      if Lookup(cwd, names[0], abs, statOk) == "" {
        forall j | 0 <= j < |names| ensures Lookup(cwd, names[j], abs, statOk) == "" <== FirstFound(names, cwd, abs, statOk) == None {
          if j > 0 {
            assert names[1..][j - 1] == names[j];
          }
        }
        forall j | 0 <= j < |names| - 1 ensures Lookup(cwd, names[1..][j], abs, statOk) == "" <== forall j' | 0 <= j' < |names| :: Lookup(cwd, names[j'], abs, statOk) == "" {
          assert names[1..][j] == names[j + 1];
        }
      }
    }
  }

  /** An explicit --config is loaded, --no-config or not. */
  lemma ExplicitConfigFirst(args: RunArgs, abs: string -> Option<AbsDir>, statOk: string -> bool, load: Loader)
    requires args.config != ""
    ensures SelectedConfig(args, abs, statOk, load) == load(args.config)
  {
  }

  /** --no-config without --config gives the empty configuration and loads nothing. */
  lemma NoConfigIsEmpty(args: RunArgs, abs: string -> Option<AbsDir>, statOk: string -> bool, load: Loader)
    requires args.config == "" && args.noConfig
    ensures SelectedConfig(args, abs, statOk, load) == Ok(map[])
  {
  }

  /** Without either flag and with no conventional file anywhere upward, the configuration is empty. */
  lemma NothingFoundIsEmpty(args: RunArgs, abs: string -> Option<AbsDir>, statOk: string -> bool, load: Loader)
    requires args.config == "" && !args.noConfig
    requires forall j | 0 <= j < |ConfigNames| :: Lookup(args.cwd, ConfigNames[j], abs, statOk) == ""
    ensures SelectedConfig(args, abs, statOk, load) == Ok(map[])
  {
    FirstFoundNone(ConfigNames, args.cwd, abs, statOk);
  }

  /**
   * A .prettierrc found in an ancestor far above the working directory wins over
   * a .prettierrc.json in the working directory itself.
   */
  lemma EarlierNameBeatsCloserFile(args: RunArgs, dir: AbsDir, k: nat, abs: string -> Option<AbsDir>, statOk: string -> bool, load: Loader)
    requires args.config == "" && !args.noConfig
    requires abs(args.cwd) == Some(dir) && k <= |dir|
    requires statOk(JoinName(dir[..k], ".prettierrc"))
    requires statOk(JoinName(dir, ".prettierrc.json"))
    requires forall j | k < j <= |dir| :: !statOk(JoinName(dir[..j], ".prettierrc"))
    ensures SelectedConfig(args, abs, statOk, load) == load(JoinName(dir[..k], ".prettierrc"))
  {
    var name := ".prettierrc";
    LookupNotFound(dir, name, statOk);
    var found := LookupFrom(dir, name, statOk);
    LookupFindsNearest(dir, name, statOk);
    var k': nat :| NearestHolder(dir, name, statOk, k') && found == JoinName(dir[..k'], name);
    if k' < k {
      assert false;
    } else if k < k' {
      assert false;
    }
    assert ConfigNames[0] == name;
    FirstFoundIsFirst(ConfigNames, args.cwd, abs, statOk, 0);
  }
}
