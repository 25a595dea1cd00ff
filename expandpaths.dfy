/**
 * expandPatterns: turns the command-line patterns into the ordered list of files
 * to format and errors to report. It assembles the ignore text, classifies each
 * pattern by what Lstat says about it, then expands files, directories (through
 * filepath.Walk) and globs (through doublestar.GlobWalk), pruning ignored
 * entries and dropping paths already produced.
 */
module ExpandPaths {
  import opened Wrappers
  import opened GoStrings
  import opened Runner

  datatype PathType = FileType | DirType | GlobType

  /** One result: a file to format (with its ignore-unknown flag) or an error message. */
  datatype ExpandedPath = ExpandedPath(filePath: string, ignoreUnknown: bool, error: string)

  datatype ExpandedPattern = ExpandedPattern(pathType: PathType, path: string)

  function ErrorEntry(msg: string): ExpandedPath {
    ExpandedPath("", false, msg)
  }

  /** What os.Lstat says a path is. */
  datatype FileMode = Symlink | Regular | Directory | Irregular

  /** gitignore.New(text, base): the matcher is known by the text and base it was built from. */
  datatype Matcher = Matcher(text: string, base: string)

  /**
   * The tree filepath.Walk visits below a path, children in the order Walk
   * visits them: a non-directory, a directory, a directory that cannot be
   * listed, or an entry whose Lstat fails.
   */
  datatype Node =
    | Leaf(name: string)
    | Folder(name: string, children: seq<Node>)
    | Unlistable(name: string, reason: string)
    | Vanished(name: string, reason: string)

  /** A path doublestar.GlobWalk reports, with the matches it would visit below a directory. */
  datatype Hit = Hit(path: string, isDir: bool, below: seq<Hit>)

  /** The matches GlobWalk visits for a pattern, and the error it returns at the end, if any. */
  datatype GlobRun = GlobRun(hits: seq<Hit>, failure: Option<string>)

  /**
   * The file system and the two libraries, as seen by expandPatterns:
   * os.Lstat, the lines of an opened ignore file (None when it cannot be
   * opened), filepath.Join, filepath.Abs, the Walk tree of a path, GlobWalk
   * of a pattern, Matcher.Ignore on a relative path and Matcher.Absolute
   * followed by Ignore on an absolute one.
   */
  datatype Env = Env(
    lstat: string -> Option<FileMode>,
    open: string -> Option<seq<string>>,
    join: (string, string) -> string,
    abs: string -> string,
    walk: string -> Node,
    glob: string -> GlobRun,
    ignores: (Matcher, string) -> bool,
    ignoresAbsolute: (Matcher, string, bool) -> bool)

  function SymlinkMessage(pattern: string): string {
    "Explicitly specified pattern \"" + pattern + "\" is a symbolic link."
  }

  // The format strings are raw strings: "\n" in them is a backslash and an n.
  function DirMessage(pattern: string, err: string): string {
    "Unable to expand directory: \"" + pattern + "\".\\n" + err
  }

  function GlobMessage(pattern: string, err: string): string {
    "Unable to expand glob pattern: \"" + pattern + "\".\\n" + err
  }

  function NoMatchMessage(pattern: string): string {
    "No files matching the pattern were found: \"" + pattern + "\"."
  }

  /** The built-in ignore text, and the node_modules line added without --with-node-modules. */
  const BuiltinIgnore: string := "\n.git\n.sl\n.svn\n.hg\n"
  const NodeModulesIgnore: string := "\nnode_modules\n"

  /** The lines of the built-in ignore text. */
  function BuiltinLines(withNodeModules: bool): seq<string> {
    ["", ".git", ".sl", ".svn", ".hg"] + (if withNodeModules then [] else ["", "node_modules"])
  }

  /** Each line followed by a newline. */
  function TextOf(lines: seq<string>): string {
    if lines == [] then ""
    else TextOf(lines[..|lines| - 1]) + lines[|lines| - 1] + "\n"
  }

  /** The lines of the ignore files that open, in order; the others add nothing. */
  function IgnoreFileLines(paths: seq<string>, root: string, env: Env): seq<string> {
    if paths == [] then []
    else
      var more := env.open(env.join(root, paths[|paths| - 1]));
      IgnoreFileLines(paths[..|paths| - 1], root, env) + (if more.None? then [] else more.value)
  }

  /** The patterns expandPatterns can take: an empty one would be indexed at pattern[0] when Lstat fails on it. */
  predicate Expandable(patterns: seq<string>, env: Env) {
    forall i | 0 <= i < |patterns| :: patterns[i] == "" ==> env.lstat("").Some?
  }

  /** The first loop over the patterns: symlink errors, patterns to expand, and negations for the ignore text. */
  datatype Classified = Classified(errors: seq<ExpandedPath>, expanded: seq<ExpandedPattern>, negations: seq<string>)

  function Classify(patterns: seq<string>, env: Env, noErr: bool): Classified
    requires Expandable(patterns, env)
  {
    if patterns == [] then Classified([], [], [])
    else
      var c := Classify(patterns[..|patterns| - 1], env, noErr);
      var p := patterns[|patterns| - 1];
      match env.lstat(p)
      case Some(Symlink) => if noErr then c.(errors := c.errors + [ErrorEntry(SymlinkMessage(p))]) else c
      case Some(Regular) => c.(expanded := c.expanded + [ExpandedPattern(FileType, p)])
      case Some(Directory) => c.(expanded := c.expanded + [ExpandedPattern(DirType, p)])
      case Some(Irregular) => c
      case None =>
        if p[0] == '!' then c.(negations := c.negations + [ToSlash(p[1..])])
        else c.(expanded := c.expanded + [ExpandedPattern(GlobType, p)])
  }

  /** The lines of the ignore text: built-ins, ignore files, then negated patterns. */
  function IgnoreLines(args: RunArgs, root: string, env: Env): seq<string>
    requires Expandable(args.patterns, env)
  {
    BuiltinLines(args.withNodeModules) + IgnoreFileLines(args.ignorePaths, root, env)
      + Classify(args.patterns, env, args.noErrorOnUnmatchedPattern).negations
  }

  /** What the callbacks see: the file system, the matcher, the absolute root and the flag. */
  datatype Ctx = Ctx(env: Env, matcher: Matcher, base: string, noErr: bool)

  /** What a callback returns to the walk. */
  datatype Verdict = Proceed | SkipDir | Abort(err: string)

  /** What a directory walk appended to res, and what it returned. */
  datatype Walked = Walked(emitted: seq<ExpandedPath>, verdict: Verdict)

  /** The filepath.Walk callback, for an entry without an error. */
  function DirCallback(ctx: Ctx, seen: set<string>, path: string, isDir: bool): (w: Walked)
    ensures !w.verdict.Abort?
    ensures w.verdict == SkipDir <==> ctx.env.abs(path) != ctx.base && ctx.env.ignoresAbsolute(ctx.matcher, ctx.env.abs(path), isDir)
    ensures |w.emitted| <= 1
    ensures w.emitted != [] <==>
      ctx.env.abs(path) != ctx.base && !ctx.env.ignoresAbsolute(ctx.matcher, ctx.env.abs(path), isDir) && !isDir && path !in seen
    ensures w.emitted != [] ==> w.emitted[0] == ExpandedPath(path, true, "")
  {
    var p := ctx.env.abs(path);
    if p == ctx.base then Walked([], Proceed)
    else if ctx.env.ignoresAbsolute(ctx.matcher, p, isDir) then Walked([], SkipDir)
    else if isDir then Walked([], Proceed)
    else if path in seen then Walked([], Proceed)
    else Walked([ExpandedPath(path, true, "")], Proceed)
  }

  predicate IsDirectory(n: Node) {
    n.Folder? || n.Unlistable?
  }

  /**
   * filepath.Walk below one entry. An entry whose Lstat or listing fails is
   * handed to the callback with its error, which the callback returns.
   */
  function WalkNode(ctx: Ctx, seen: set<string>, node: Node, path: string): Walked
    decreases node
  {
    match node
    case Vanished(_, reason) => Walked([], Abort(reason))
    case Unlistable(_, reason) => Walked([], Abort(reason))
    case Leaf(_) => DirCallback(ctx, seen, path, false)
    case Folder(_, children) =>
      var w := DirCallback(ctx, seen, path, true);
      if w.verdict == Proceed then WalkChildren(ctx, seen, children, path) else w
  }

  /**
   * The entries of a directory in order. SkipDir from a directory skips that
   * directory; SkipDir from any other entry skips the rest of the directory
   * and is passed up; an error ends the walk.
   */
  function WalkChildren(ctx: Ctx, seen: set<string>, children: seq<Node>, dir: string): Walked
    decreases children
  {
    if children == [] then Walked([], Proceed)
    else
      var c := children[0];
      var w := WalkNode(ctx, seen, c, ctx.env.join(dir, c.name));
      if w.verdict == Proceed || (w.verdict == SkipDir && IsDirectory(c)) then
        var rest := WalkChildren(ctx, seen, children[1..], dir);
        Walked(w.emitted + rest.emitted, rest.verdict)
      else w
  }

  /** filepath.Walk(root, callback): a SkipDir that reaches the top ends the walk without error. */
  function WalkRoot(ctx: Ctx, seen: set<string>, root: string): Walked {
    var w := WalkNode(ctx, seen, ctx.env.walk(root), root);
    if w.verdict == SkipDir then Walked(w.emitted, Proceed) else w
  }

  /** What the glob callback updates: res, seen and matched. */
  datatype GlobState = GlobState(res: seq<ExpandedPath>, seen: set<string>, matched: bool)

  /** The doublestar.GlobWalk callback. */
  function GlobCallback(ctx: Ctx, st: GlobState, path: string, isDir: bool): (r: (Verdict, GlobState))
    ensures !r.0.Abort?
    ensures r.0 == SkipDir <==> ctx.env.abs(path) != ctx.base && ctx.env.ignoresAbsolute(ctx.matcher, ctx.env.abs(path), isDir)
    ensures var accepted := ctx.env.abs(path) != ctx.base && !ctx.env.ignoresAbsolute(ctx.matcher, ctx.env.abs(path), isDir) && !isDir;
      && (r.1.matched <==> st.matched || accepted)
      && r.1.res == st.res + (if accepted && path !in st.seen then [ExpandedPath(path, false, "")] else [])
      && r.1.seen == st.seen + (if accepted then {path} else {})
  {
    var p := ctx.env.abs(path);
    if p == ctx.base then (Proceed, st)
    else if ctx.env.ignoresAbsolute(ctx.matcher, p, isDir) then (SkipDir, st)
    else if isDir then (Proceed, st)
    else if path in st.seen then (Proceed, st.(matched := true))
    else (Proceed, GlobState(st.res + [ExpandedPath(path, false, "")], st.seen + {path}, true))
  }

  /** GlobWalk from one match: the matches below a directory are visited unless it is skipped. */
  function GlobHit(ctx: Ctx, st: GlobState, h: Hit): (Verdict, GlobState)
    decreases h
  {
    var (v, st1) := GlobCallback(ctx, st, h.path, h.isDir);
    if v == Proceed && h.isDir then GlobHits(ctx, st1, h.below) else (v, st1)
  }

  /** Sibling matches in order, with the same SkipDir rule as filepath.Walk. */
  function GlobHits(ctx: Ctx, st: GlobState, hs: seq<Hit>): (Verdict, GlobState)
    decreases hs
  {
    if hs == [] then (Proceed, st)
    else
      var (v, st1) := GlobHit(ctx, st, hs[0]);
      if v == Proceed || (v == SkipDir && hs[0].isDir) then GlobHits(ctx, st1, hs[1..]) else (v, st1)
  }

  /** The second loop's state: res and seen. */
  datatype State = State(res: seq<ExpandedPath>, seen: set<string>)

  /** One iteration of the second loop over the expanded patterns. */
  function Dispatch(ctx: Ctx, st: State, ep: ExpandedPattern): State {
    match ep.pathType
    case FileType =>
      if ctx.env.ignores(ctx.matcher, ep.path) then st
      else if ep.path in st.seen then st
      else State(st.res + [ExpandedPath(ep.path, false, "")], st.seen + {ep.path})
    case DirType =>
      var w := WalkRoot(ctx, st.seen, ep.path);
      State(st.res + w.emitted + (if w.verdict.Abort? then [ErrorEntry(DirMessage(ep.path, w.verdict.err))] else []), st.seen)
    case GlobType =>
      var run := ctx.env.glob(ep.path);
      var g := GlobHits(ctx, GlobState(st.res, st.seen, false), run.hits).1;
      var withFailure := g.res + (if run.failure.Some? then [ErrorEntry(GlobMessage(ep.path, run.failure.value))] else []);
      State(withFailure + (if !g.matched && !ctx.noErr then [ErrorEntry(NoMatchMessage(ep.path))] else []), g.seen)
  }

  function DispatchAll(ctx: Ctx, st: State, eps: seq<ExpandedPattern>): State {
    if eps == [] then st
    else Dispatch(ctx, DispatchAll(ctx, st, eps[..|eps| - 1]), eps[|eps| - 1])
  }

  /** The context the second loop runs in. */
  function ContextOf(args: RunArgs, root: string, env: Env): Ctx
    requires Expandable(args.patterns, env)
  {
    var base := env.abs(root);
    Ctx(env, Matcher(TextOf(IgnoreLines(args, root, env)), base), base, args.noErrorOnUnmatchedPattern)
  }

  /** The list expandPatterns(args, root) returns. */
  function Expansion(args: RunArgs, root: string, env: Env): seq<ExpandedPath>
    requires Expandable(args.patterns, env)
  {
    var c := Classify(args.patterns, env, args.noErrorOnUnmatchedPattern);
    DispatchAll(ContextOf(args, root, env), State(c.errors, {}), c.expanded).res
  }

  /** expandPatterns(ctx, args, root). */
  method ExpandPatterns(args: RunArgs, root: string, env: Env) returns (res: seq<ExpandedPath>)
    requires Expandable(args.patterns, env)
    ensures res == Expansion(args, root, env)
  {
    var ignoreFile := ReadIgnoreText(args.withNodeModules, args.ignorePaths, root, env);
    var expanded;
    res, expanded, ignoreFile := ClassifyPatterns(args.patterns, env, args.noErrorOnUnmatchedPattern, ignoreFile,
      BuiltinLines(args.withNodeModules) + IgnoreFileLines(args.ignorePaths, root, env));

    var base := env.abs(root);
    var ignore := Matcher(ignoreFile, base);
    var ctx := Ctx(env, ignore, base, args.noErrorOnUnmatchedPattern);
    assert ctx == ContextOf(args, root, env);
    res := ExpandAll(ctx, res, expanded);
  }

  /** Lines 43-66: the built-in ignore text followed by the lines of each ignore file that opens. */
  method ReadIgnoreText(withNodeModules: bool, paths: seq<string>, root: string, env: Env) returns (ignoreFile: string)
    ensures ignoreFile == TextOf(BuiltinLines(withNodeModules) + IgnoreFileLines(paths, root, env))
  {
    ignoreFile := BuiltinIgnore;
    if !withNodeModules {
      ignoreFile := ignoreFile + NodeModulesIgnore;
    }
    BuiltinText(withNodeModules);

    ghost var builtin := BuiltinLines(withNodeModules);
    assert builtin + IgnoreFileLines(paths[..0], root, env) == builtin;
    for i := 0 to |paths|
      invariant ignoreFile == TextOf(builtin + IgnoreFileLines(paths[..i], root, env))
    {
      ghost var before := builtin + IgnoreFileLines(paths[..i], root, env);
      var f := env.open(env.join(root, paths[i]));
      IgnoreFileStep(builtin, paths, i, root, env);
      if f.None? {
        assert before + [] == before;
        continue;
      }
      ignoreFile := AppendLines(ignoreFile, before, f.value);
    }
    assert paths[..|paths|] == paths;
  }

  // One more ignore file adds its lines, or nothing when it does not open.
  lemma IgnoreFileStep(builtin: seq<string>, paths: seq<string>, i: nat, root: string, env: Env)
    requires i < |paths|
    ensures var f := env.open(env.join(root, paths[i]));
      builtin + IgnoreFileLines(paths[..i + 1], root, env)
        == builtin + IgnoreFileLines(paths[..i], root, env) + (if f.None? then [] else f.value)
  {
    assert paths[..i + 1][..i] == paths[..i];
  }

  /** Lines 61-64: each scanned line of an opened ignore file, followed by a newline. */
  method AppendLines(text: string, ghost before: seq<string>, lines: seq<string>) returns (r: string)
    requires text == TextOf(before)
    ensures r == TextOf(before + lines)
  {
    r := text;
    assert before + lines[..0] == before;
    for j := 0 to |lines|
      invariant r == TextOf(before + lines[..j])
    {
      assert (before + lines[..j + 1])[..|before| + j] == before + lines[..j];
      r := r + lines[j] + "\n";
    }
    assert lines[..|lines|] == lines;
  }

  /**
   * Lines 68-89: the first loop over the patterns, appending symlink errors to
   * res, patterns to expanded and negations to the ignore text read so far.
   */
  method ClassifyPatterns(patterns: seq<string>, env: Env, noErr: bool, text: string, ghost fileLines: seq<string>)
    returns (res: seq<ExpandedPath>, expanded: seq<ExpandedPattern>, ignoreFile: string)
    requires Expandable(patterns, env) && text == TextOf(fileLines)
    ensures res == Classify(patterns, env, noErr).errors
    ensures expanded == Classify(patterns, env, noErr).expanded
    ensures ignoreFile == TextOf(fileLines + Classify(patterns, env, noErr).negations)
  {
    res, expanded, ignoreFile := [], [], text;
    assert patterns[..0] == [] && fileLines + [] == fileLines;
    for i := 0 to |patterns|
      invariant Expandable(patterns[..i], env)
      invariant res == Classify(patterns[..i], env, noErr).errors
      invariant expanded == Classify(patterns[..i], env, noErr).expanded
      invariant ignoreFile == TextOf(fileLines + Classify(patterns[..i], env, noErr).negations)
    {
      assert patterns[..i + 1][..i] == patterns[..i];
      var pattern := patterns[i];
      var fi := env.lstat(pattern);
      ghost var negs := Classify(patterns[..i], env, noErr).negations;
      if fi.Some? {
        match fi.value {
          case Symlink =>
            if noErr {
              res := res + [ErrorEntry(SymlinkMessage(pattern))];
            }
          case Regular =>
            expanded := expanded + [ExpandedPattern(FileType, pattern)];
          case Directory =>
            expanded := expanded + [ExpandedPattern(DirType, pattern)];
          case Irregular =>
        }
      } else {
        if pattern[0] == '!' {
          assert (fileLines + (negs + [ToSlash(pattern[1..])]))[..|fileLines + negs|] == fileLines + negs;
          assert fileLines + (negs + [ToSlash(pattern[1..])]) == (fileLines + negs) + [ToSlash(pattern[1..])];
          ignoreFile := ignoreFile + ToSlash(pattern[1..]) + "\n";
        } else {
          expanded := expanded + [ExpandedPattern(GlobType, pattern)];
        }
      }
    }
    assert patterns[..|patterns|] == patterns;
  }

  /** Lines 94-161: the second loop, expanding each pattern into res and recording paths in seen. */
  method ExpandAll(ctx: Ctx, res0: seq<ExpandedPath>, expanded: seq<ExpandedPattern>) returns (res: seq<ExpandedPath>)
    ensures res == DispatchAll(ctx, State(res0, {}), expanded).res
  {
    res := res0;
    var seen: set<string> := {};
    for i := 0 to |expanded|
      invariant State(res, seen) == DispatchAll(ctx, State(res0, {}), expanded[..i])
    {
      assert expanded[..i + 1][..i] == expanded[..i];
      var ep := expanded[i];
      match ep.pathType
      case FileType =>
        res, seen := ExpandFile(ctx, res, seen, ep.path);
      case DirType =>
        res := ExpandDirectory(ctx, res, seen, ep.path);
      case GlobType =>
        res, seen := ExpandGlob(ctx, res, seen, ep.path);
    }
    assert expanded[..|expanded|] == expanded;
  }

  /** Lines 97-105: an explicit file, unless ignored or already produced. */
  method ExpandFile(ctx: Ctx, res0: seq<ExpandedPath>, seen0: set<string>, path: string)
    returns (res: seq<ExpandedPath>, seen: set<string>)
    ensures State(res, seen) == Dispatch(ctx, State(res0, seen0), ExpandedPattern(FileType, path))
  {
    res, seen := res0, seen0;
    if ctx.env.ignores(ctx.matcher, path) {
      return;
    }
    if path !in seen {
      res := res + [ExpandedPath(path, false, "")];
      seen := seen + {path};
    }
  }

  /** Lines 106-131: the files of a directory walk, then its error if it failed. */
  method ExpandDirectory(ctx: Ctx, res0: seq<ExpandedPath>, seen: set<string>, path: string) returns (res: seq<ExpandedPath>)
    ensures State(res, seen) == Dispatch(ctx, State(res0, seen), ExpandedPattern(DirType, path))
  {
    var w := WalkRoot(ctx, seen, path);
    res := res0 + w.emitted;
    if w.verdict.Abort? {
      res := res + [ErrorEntry(DirMessage(path, w.verdict.err))];
    }
  }

  /** Lines 132-159: the files of a glob walk, its error if it failed, then the no-match error. */
  method ExpandGlob(ctx: Ctx, res0: seq<ExpandedPath>, seen0: set<string>, path: string)
    returns (res: seq<ExpandedPath>, seen: set<string>)
    ensures State(res, seen) == Dispatch(ctx, State(res0, seen0), ExpandedPattern(GlobType, path))
  {
    var run := ctx.env.glob(path);
    var g := GlobHits(ctx, GlobState(res0, seen0, false), run.hits).1;
    res, seen := g.res, g.seen;
    if run.failure.Some? {
      res := res + [ErrorEntry(GlobMessage(path, run.failure.value))];
    }
    if !g.matched && !ctx.noErr {
      res := res + [ErrorEntry(NoMatchMessage(path))];
    }
  }

  /** The built-in lines give the source's literal text. */
  lemma BuiltinText(withNodeModules: bool)
    ensures TextOf(BuiltinLines(withNodeModules)) == BuiltinIgnore + (if withNodeModules then "" else NodeModulesIgnore)
  {
    var l5 := ["", ".git", ".sl", ".svn", ".hg"];
    VcsLinesText();
    if withNodeModules {
      assert BuiltinLines(withNodeModules) == l5;
    } else {
      var l6, l7 := l5 + [""], l5 + ["", "node_modules"];
      assert l6[..5] == l5 && l7[..6] == l6;
      assert TextOf(l6) == BuiltinIgnore + "\n";
      assert TextOf(l7) == BuiltinIgnore + NodeModulesIgnore;
    }
  }

  // The lines for the version-control directories, one at a time.
  lemma VcsLinesText()
    ensures TextOf(["", ".git", ".sl", ".svn", ".hg"]) == BuiltinIgnore
  {
    var l1, l2, l3, l4, l5 := [""], ["", ".git"], ["", ".git", ".sl"], ["", ".git", ".sl", ".svn"], ["", ".git", ".sl", ".svn", ".hg"];
    assert l1[..0] == [] && l2[..1] == l1 && l3[..2] == l2 && l4[..3] == l3 && l5[..4] == l4;
    assert TextOf(l1) == "\n";
    assert TextOf(l2) == "\n.git\n";
    assert TextOf(l3) == "\n.git\n.sl\n";
    assert TextOf(l4) == "\n.git\n.sl\n.svn\n";
  }
}
