/**
 * What expandPatterns guarantees: the layout of the ignore text, how each
 * pattern is classified, how directory walks and glob walks prune ignored
 * entries, which errors are reported, and which paths can repeat.
 */
module ExpandPathsProps {
  import opened Wrappers
  import opened GoStrings
  import opened Runner
  import opened ExpandPaths

  // ---------------------------------------------------------------------------
  // The ignore text

  lemma {:induction false} TextAppend(a: seq<string>, b: seq<string>)
    ensures TextOf(a + b) == TextOf(a) + TextOf(b)
    decreases |b|
  {
    if b == [] {
      assert a + b == a;
    } else {
      var b' := b[..|b| - 1];
      assert (a + b)[..|a + b| - 1] == a + b';
      TextAppend(a, b');
    }
  }

  /**
   * The ignore text is the built-in text, .git .sl .svn .hg and then
   * node_modules unless --with-node-modules, followed by the ignore files'
   * lines and then the negated patterns.
   */
  lemma IgnoreTextLayout(args: RunArgs, root: string, env: Env)
    requires Expandable(args.patterns, env)
    ensures TextOf(IgnoreLines(args, root, env))
      == BuiltinIgnore + (if args.withNodeModules then "" else NodeModulesIgnore)
         + TextOf(IgnoreFileLines(args.ignorePaths, root, env))
         + TextOf(Classify(args.patterns, env, args.noErrorOnUnmatchedPattern).negations)
  {
    var b := BuiltinLines(args.withNodeModules);
    var f := IgnoreFileLines(args.ignorePaths, root, env);
    var n := Classify(args.patterns, env, args.noErrorOnUnmatchedPattern).negations;
    TextAppend(b + f, n);
    TextAppend(b, f);
    BuiltinText(args.withNodeModules);
  }

  /** The built-in names are always there; node_modules is there exactly without --with-node-modules. */
  lemma BuiltinNames(args: RunArgs, root: string, env: Env)
    requires Expandable(args.patterns, env)
    ensures ".git" in IgnoreLines(args, root, env) && ".sl" in IgnoreLines(args, root, env)
    ensures ".svn" in IgnoreLines(args, root, env) && ".hg" in IgnoreLines(args, root, env)
    ensures "node_modules" in BuiltinLines(args.withNodeModules) <==> !args.withNodeModules
    ensures BuiltinLines(args.withNodeModules) <= IgnoreLines(args, root, env)
  {
    var lines := IgnoreLines(args, root, env);
    var b := BuiltinLines(args.withNodeModules);
    assert lines[1] == b[1] == ".git" && lines[2] == ".sl" && lines[3] == ".svn" && lines[4] == ".hg";
    if args.withNodeModules {
      assert b == ["", ".git", ".sl", ".svn", ".hg"];
      assert "node_modules" != "" && "node_modules" != ".git" && "node_modules" != ".sl";
      assert "node_modules" != ".svn" && "node_modules" != ".hg";
    } else {
      assert b[6] == "node_modules";
    }
  }

  /** Ignore files contribute in the order given, each independently of the others. */
  lemma {:induction false} IgnoreFilesInOrder(a: seq<string>, b: seq<string>, root: string, env: Env)
    ensures IgnoreFileLines(a + b, root, env) == IgnoreFileLines(a, root, env) + IgnoreFileLines(b, root, env)
    decreases |b|
  {
    if b == [] {
      assert a + b == a;
    } else {
      var b' := b[..|b| - 1];
      assert (a + b)[..|a + b| - 1] == a + b';
      IgnoreFilesInOrder(a, b', root, env);
    }
  }

  /** One ignore file contributes all its lines, or nothing when it cannot be opened. */
  lemma IgnoreFileAlone(p: string, root: string, env: Env)
    ensures IgnoreFileLines([p], root, env)
      == match env.open(env.join(root, p)) case None => [] case Some(lines) => lines
  {
    assert [p][..0] == [];
  }

  // ---------------------------------------------------------------------------
  // Classification of the patterns

  function Combine(c: Classified, d: Classified): Classified {
    Classified(c.errors + d.errors, c.expanded + d.expanded, c.negations + d.negations)
  }

  /** Each pattern is classified on its own, in order. */
  lemma {:induction false} ClassifyAppend(a: seq<string>, b: seq<string>, env: Env, noErr: bool)
    requires Expandable(a + b, env)
    ensures Expandable(a, env) && Expandable(b, env)
    ensures Classify(a + b, env, noErr) == Combine(Classify(a, env, noErr), Classify(b, env, noErr))
    decreases |b|
  {
    ExpandableParts(a, b, env);
    if b == [] {
      assert a + b == a;
    } else {
      var b' := b[..|b| - 1];
      assert (a + b)[..|a + b| - 1] == a + b';
      ExpandableParts(a, b', env) by {
        ExpandableParts(a + b', [b[|b| - 1]], env);
        assert a + b' + [b[|b| - 1]] == a + b;
      }
      ClassifyAppend(a, b', env, noErr);
    }
  }

  lemma ExpandableParts(a: seq<string>, b: seq<string>, env: Env)
    requires Expandable(a + b, env)
    ensures Expandable(a, env) && Expandable(b, env)
  {
    assert forall i | 0 <= i < |a| :: a[i] == (a + b)[i];
    assert forall i | 0 <= i < |b| :: b[i] == (a + b)[|a| + i];
  }

  /**
   * One pattern: a symbolic link is one error with --no-error-on-unmatched-pattern
   * and nothing without it; a regular file or a directory is expanded as such;
   * any other mode gives nothing; a pattern Lstat fails on is a negation for
   * the ignore text when it starts with '!', and a glob otherwise.
   */
  lemma ClassifyOne(p: string, env: Env, noErr: bool)
    requires Expandable([p], env)
    ensures env.lstat(p) == Some(Symlink) ==>
      Classify([p], env, noErr) == Classified(if noErr then [ErrorEntry(SymlinkMessage(p))] else [], [], [])
    ensures env.lstat(p) == Some(Regular) ==> Classify([p], env, noErr) == Classified([], [ExpandedPattern(FileType, p)], [])
    ensures env.lstat(p) == Some(Directory) ==> Classify([p], env, noErr) == Classified([], [ExpandedPattern(DirType, p)], [])
    ensures env.lstat(p) == Some(Irregular) ==> Classify([p], env, noErr) == Classified([], [], [])
    ensures env.lstat(p).None? ==>
      p != "" && Classify([p], env, noErr)
        == (if p[0] == '!' then Classified([], [], [ToSlash(p[1..])]) else Classified([], [ExpandedPattern(GlobType, p)], []))
  {
    assert [p][..0] == [];
    assert [p][0] == p;
  }

  predicate HasSymlink(patterns: seq<string>, env: Env) {
    exists i | 0 <= i < |patterns| :: env.lstat(patterns[i]) == Some(Symlink)
  }

  /**
   * A symbolic-link pattern is reported only when --no-error-on-unmatched-pattern
   * is given; without the flag it is skipped silently.
   */
  lemma {:induction false} SymlinkErrorOnlyWithFlag(patterns: seq<string>, env: Env, noErr: bool)
    requires Expandable(patterns, env)
    ensures Classify(patterns, env, noErr).errors == [] <==> !noErr || !HasSymlink(patterns, env)
  {
    if patterns != [] {
      var init := patterns[..|patterns| - 1];
      var p := patterns[|patterns| - 1];
      assert forall i | 0 <= i < |init| :: init[i] == patterns[i];
      SymlinkErrorOnlyWithFlag(init, env, noErr);
      if HasSymlink(patterns, env) && !HasSymlink(init, env) {
        var i :| 0 <= i < |patterns| && env.lstat(patterns[i]) == Some(Symlink);
        assert i == |patterns| - 1;
      }
      if HasSymlink(init, env) {
        var i :| 0 <= i < |init| && env.lstat(init[i]) == Some(Symlink);
        assert env.lstat(patterns[i]) == Some(Symlink);
      }
    }
  }

  /** Every error message the expansion builds is non-empty, whatever the pattern and the library error. */
  lemma MessagesNonEmpty(p: string)
    ensures SymlinkMessage(p) != "" && NoMatchMessage(p) != ""
    ensures forall err :: DirMessage(p, err) != "" && GlobMessage(p, err) != ""
  {
  }

  // ---------------------------------------------------------------------------
  // Counting error entries

  function Errors(res: seq<ExpandedPath>): nat {
    if res == [] then 0
    else Errors(res[..|res| - 1]) + (if res[|res| - 1].error != "" then 1 else 0)
  }

  lemma {:induction false} ErrorsAppend(a: seq<ExpandedPath>, b: seq<ExpandedPath>)
    ensures Errors(a + b) == Errors(a) + Errors(b)
    decreases |b|
  {
    if b == [] {
      assert a + b == a;
    } else {
      var b' := b[..|b| - 1];
      assert (a + b)[..|a + b| - 1] == a + b';
      ErrorsAppend(a, b');
    }
  }

  lemma {:induction false} NoErrors(res: seq<ExpandedPath>)
    requires forall i | 0 <= i < |res| :: res[i].error == ""
    ensures Errors(res) == 0
  {
    if res != [] {
      NoErrors(res[..|res| - 1]);
    }
  }

  lemma ErrorsOne(e: ExpandedPath)
    ensures Errors([e]) == if e.error != "" then 1 else 0
  {
    assert [e][..0] == [];
  }

  // ---------------------------------------------------------------------------
  // The directory walk

  /**
   * An entry the directory walk may emit: a path not seen before, neither the base
   * nor ignored when the matcher is asked about it as a non-directory (isDir false).
   */
  predicate FreshWalkEntry(ctx: Ctx, seen: set<string>, e: ExpandedPath) {
    e.ignoreUnknown && e.error == "" && e.filePath !in seen
    && ctx.env.abs(e.filePath) != ctx.base
    && !ctx.env.ignoresAbsolute(ctx.matcher, ctx.env.abs(e.filePath), false)
  }

  /**
   * Everything a walk emits was not seen before, has an absolute path other than
   * the base, is not ignored as a non-directory, and is flagged ignoreUnknown with
   * no error. (That only non-directories are emitted is DirCallback's contract.)
   */
  lemma {:induction false} WalkNodeEmits(ctx: Ctx, seen: set<string>, node: Node, path: string)
    ensures forall i | 0 <= i < |WalkNode(ctx, seen, node, path).emitted| :: FreshWalkEntry(ctx, seen, WalkNode(ctx, seen, node, path).emitted[i])
    decreases node
  {
    if node.Folder? && DirCallback(ctx, seen, path, true).verdict == Proceed {
      WalkChildrenEmits(ctx, seen, node.children, path);
    }
  }

  lemma {:induction false} WalkChildrenEmits(ctx: Ctx, seen: set<string>, children: seq<Node>, dir: string)
    ensures forall i | 0 <= i < |WalkChildren(ctx, seen, children, dir).emitted| :: FreshWalkEntry(ctx, seen, WalkChildren(ctx, seen, children, dir).emitted[i])
    decreases children
  {
    if children != [] {
      var c := children[0];
      var w := WalkNode(ctx, seen, c, ctx.env.join(dir, c.name));
      WalkNodeEmits(ctx, seen, c, ctx.env.join(dir, c.name));
      if w.verdict == Proceed || (w.verdict == SkipDir && IsDirectory(c)) {
        WalkChildrenEmits(ctx, seen, children[1..], dir);
        var rest := WalkChildren(ctx, seen, children[1..], dir);
        assert WalkChildren(ctx, seen, children, dir).emitted == w.emitted + rest.emitted;
      }
    }
  }

  lemma WalkRootEmits(ctx: Ctx, seen: set<string>, root: string)
    ensures forall i | 0 <= i < |WalkRoot(ctx, seen, root).emitted| :: FreshWalkEntry(ctx, seen, WalkRoot(ctx, seen, root).emitted[i])
  {
    WalkNodeEmits(ctx, seen, ctx.env.walk(root), root);
  }

  /** The entry whose absolute path is the base is never tested against the matcher: a directory is entered, a file is not emitted. */
  lemma BaseNeverTested(ctx: Ctx, seen: set<string>, name: string, children: seq<Node>, path: string)
    requires ctx.env.abs(path) == ctx.base
    ensures WalkNode(ctx, seen, Folder(name, children), path) == WalkChildren(ctx, seen, children, path)
    ensures WalkNode(ctx, seen, Leaf(name), path) == Walked([], Proceed)
  {
  }

  /** An ignored directory is skipped whole: nothing below it is emitted, whatever it holds. */
  lemma IgnoredDirectoryPruned(ctx: Ctx, seen: set<string>, name: string, children: seq<Node>, path: string)
    requires ctx.env.abs(path) != ctx.base
    requires ctx.env.ignoresAbsolute(ctx.matcher, ctx.env.abs(path), true)
    ensures WalkNode(ctx, seen, Folder(name, children), path) == Walked([], SkipDir)
  {
  }

  /**
   * An ignored file makes the callback return SkipDir, which filepath.Walk
   * takes as skipping the rest of the directory: the entries after it in the
   * same directory are not visited.
   */
  lemma IgnoredFileSkipsRest(ctx: Ctx, seen: set<string>, name: string, rest: seq<Node>, dir: string)
    requires ctx.env.abs(ctx.env.join(dir, name)) != ctx.base
    requires ctx.env.ignoresAbsolute(ctx.matcher, ctx.env.abs(ctx.env.join(dir, name)), false)
    ensures WalkChildren(ctx, seen, [Leaf(name)] + rest, dir) == Walked([], SkipDir)
  {
    assert ([Leaf(name)] + rest)[0] == Leaf(name);
  }

  /** A failed walk of a directory pattern adds exactly one error, after the files emitted before the failure; seen is left as it was. */
  lemma DirectoryErrors(ctx: Ctx, st: State, path: string)
    ensures Errors(Dispatch(ctx, st, ExpandedPattern(DirType, path)).res)
      == Errors(st.res) + (if WalkRoot(ctx, st.seen, path).verdict.Abort? then 1 else 0)
    ensures Dispatch(ctx, st, ExpandedPattern(DirType, path)).seen == st.seen
    ensures st.res + WalkRoot(ctx, st.seen, path).emitted <= Dispatch(ctx, st, ExpandedPattern(DirType, path)).res
  {
    var w := WalkRoot(ctx, st.seen, path);
    WalkRootEmits(ctx, st.seen, path);
    NoErrors(w.emitted);
    ErrorsAppend(st.res, w.emitted);
    if w.verdict.Abort? {
      var e := ErrorEntry(DirMessage(path, w.verdict.err));
      ErrorsAppend(st.res + w.emitted, [e]);
      ErrorsOne(e);
    } else {
      assert st.res + w.emitted + [] == st.res + w.emitted;
    }
  }

  // ---------------------------------------------------------------------------
  // The glob walk

  /** The file and glob outputs: no error, ignoreUnknown false. */
  predicate Recordable(e: ExpandedPath) {
    e.error == "" && !e.ignoreUnknown
  }

  /** What a glob walk does to its state: it appends new, distinct, recorded files and sets matched when it does. */
  predicate GlobGrows(st: GlobState, g: GlobState) {
    st.res <= g.res && st.seen <= g.seen && (st.matched ==> g.matched)
    && (|g.res| > |st.res| ==> g.matched)
    && (forall i | |st.res| <= i < |g.res| ::
          Recordable(g.res[i]) && g.res[i].filePath !in st.seen && g.res[i].filePath in g.seen)
    && (forall i, j | |st.res| <= i < j < |g.res| :: g.res[i].filePath != g.res[j].filePath)
  }

  lemma GlobGrowsTrans(s1: GlobState, s2: GlobState, s3: GlobState)
    requires GlobGrows(s1, s2) && GlobGrows(s2, s3)
    ensures GlobGrows(s1, s3)
  {
    forall i | |s1.res| <= i < |s3.res| ensures Recordable(s3.res[i]) && s3.res[i].filePath !in s1.seen && s3.res[i].filePath in s3.seen {
      if i < |s2.res| {
        assert s3.res[i] == s2.res[i];
      }
    }
    forall i, j | |s1.res| <= i < j < |s3.res| ensures s3.res[i].filePath != s3.res[j].filePath {
      if j < |s2.res| {
        assert s3.res[i] == s2.res[i] && s3.res[j] == s2.res[j];
      } else if i < |s2.res| {
        assert s3.res[i] == s2.res[i];
      }
    }
  }

  lemma GlobCallbackGrows(ctx: Ctx, st: GlobState, path: string, isDir: bool)
    ensures GlobGrows(st, GlobCallback(ctx, st, path, isDir).1)
    ensures GlobCallback(ctx, st, path, isDir).0 != SkipDir && !isDir && ctx.env.abs(path) != ctx.base ==> GlobCallback(ctx, st, path, isDir).1.matched
    ensures GlobCallback(ctx, st, path, isDir).0.Abort? == false
  {
  }

  lemma {:induction false} GlobHitGrows(ctx: Ctx, st: GlobState, h: Hit)
    ensures GlobGrows(st, GlobHit(ctx, st, h).1)
    ensures !GlobHit(ctx, st, h).0.Abort?
    decreases h
  {
    GlobCallbackGrows(ctx, st, h.path, h.isDir);
    var (v, st1) := GlobCallback(ctx, st, h.path, h.isDir);
    if v == Proceed && h.isDir {
      GlobHitsGrows(ctx, st1, h.below);
      GlobGrowsTrans(st, st1, GlobHits(ctx, st1, h.below).1);
    }
  }

  lemma {:induction false} GlobHitsGrows(ctx: Ctx, st: GlobState, hs: seq<Hit>)
    ensures GlobGrows(st, GlobHits(ctx, st, hs).1)
    ensures !GlobHits(ctx, st, hs).0.Abort?
    decreases hs
  {
    if hs != [] {
      GlobHitGrows(ctx, st, hs[0]);
      var (v, st1) := GlobHit(ctx, st, hs[0]);
      if v == Proceed || (v == SkipDir && hs[0].isDir) {
        GlobHitsGrows(ctx, st1, hs[1..]);
        GlobGrowsTrans(st, st1, GlobHits(ctx, st1, hs[1..]).1);
      }
    }
  }

  /** The glob walk of one pattern, from the state of the second loop. */
  function GlobOutcome(ctx: Ctx, st: State, path: string): GlobState {
    GlobHits(ctx, GlobState(st.res, st.seen, false), ctx.env.glob(path).hits).1
  }

  /**
   * A glob pattern adds its files, then one error when GlobWalk fails, then one
   * "No files matching" error when nothing matched and unmatched patterns are
   * errors; an unmatched pattern adds no files.
   */
  lemma GlobErrors(ctx: Ctx, st: State, path: string)
    ensures var g := GlobOutcome(ctx, st, path);
      Errors(Dispatch(ctx, st, ExpandedPattern(GlobType, path)).res)
        == Errors(st.res) + (if ctx.env.glob(path).failure.Some? then 1 else 0) + (if !g.matched && !ctx.noErr then 1 else 0)
    ensures var g := GlobOutcome(ctx, st, path);
      !g.matched ==> g.res == st.res
    ensures var g := GlobOutcome(ctx, st, path);
      var r := Dispatch(ctx, st, ExpandedPattern(GlobType, path)).res;
      !g.matched && !ctx.noErr ==> r[|r| - 1] == ErrorEntry(NoMatchMessage(path))
  {
    var run := ctx.env.glob(path);
    var g := GlobOutcome(ctx, st, path);
    GlobFilesNoErrors(ctx, st, path);
    var fail := if run.failure.Some? then [ErrorEntry(GlobMessage(path, run.failure.value))] else [];
    var none := if !g.matched && !ctx.noErr then [ErrorEntry(NoMatchMessage(path))] else [];
    ErrorsAppend(g.res, fail);
    ErrorsAppend(g.res + fail, none);
    if fail != [] {
      ErrorsOne(fail[0]);
    }
    if none != [] {
      ErrorsOne(none[0]);
    }
  }

  // The files a glob walk adds carry no error, and an unmatched walk adds none.
  lemma GlobFilesNoErrors(ctx: Ctx, st: State, path: string)
    ensures Errors(GlobOutcome(ctx, st, path).res) == Errors(st.res)
    ensures !GlobOutcome(ctx, st, path).matched ==> GlobOutcome(ctx, st, path).res == st.res
  {
    var g := GlobOutcome(ctx, st, path);
    GlobHitsGrows(ctx, GlobState(st.res, st.seen, false), ctx.env.glob(path).hits);
    var added := g.res[|st.res|..];
    assert g.res == st.res + added;
    assert forall i | 0 <= i < |added| :: added[i] == g.res[|st.res| + i];
    NoErrors(added);
    ErrorsAppend(st.res, added);
  }

  // ---------------------------------------------------------------------------
  // What repeats and what does not

  /** Every file or glob output is in seen, and no two of them have the same path. */
  predicate Recorded(st: State) {
    (forall i | 0 <= i < |st.res| :: Recordable(st.res[i]) ==> st.res[i].filePath in st.seen)
    && (forall i, j | 0 <= i < j < |st.res| :: Recordable(st.res[i]) && Recordable(st.res[j]) ==> st.res[i].filePath != st.res[j].filePath)
  }

  lemma RecordedAfterGlob(st: State, g: GlobState)
    requires Recorded(st) && GlobGrows(GlobState(st.res, st.seen, false), g)
    ensures Recorded(State(g.res, g.seen))
  {
    forall i, j | 0 <= i < j < |g.res| && Recordable(g.res[i]) && Recordable(g.res[j]) ensures g.res[i].filePath != g.res[j].filePath {
      if j < |st.res| {
        assert g.res[i] == st.res[i] && g.res[j] == st.res[j];
      } else if i < |st.res| {
        assert g.res[i] == st.res[i];
      }
    }
    forall i | 0 <= i < |g.res| && Recordable(g.res[i]) ensures g.res[i].filePath in g.seen {
      if i < |st.res| {
        assert g.res[i] == st.res[i];
      }
    }
  }

  lemma RecordedAppendOthers(st: State, more: seq<ExpandedPath>)
    requires Recorded(st)
    requires forall i | 0 <= i < |more| :: !Recordable(more[i])
    ensures Recorded(State(st.res + more, st.seen))
  {
    var r := st.res + more;
    assert forall i | |st.res| <= i < |r| :: r[i] == more[i - |st.res|];
  }

  lemma DispatchRecorded(ctx: Ctx, st: State, ep: ExpandedPattern)
    requires Recorded(st)
    ensures Recorded(Dispatch(ctx, st, ep))
    ensures st.res <= Dispatch(ctx, st, ep).res
  {
    match ep.pathType
    case FileType => FileRecorded(ctx, st, ep.path);
    case DirType => DirectoryRecorded(ctx, st, ep.path);
    case GlobType => GlobRecorded(ctx, st, ep.path);
  }

  lemma FileRecorded(ctx: Ctx, st: State, path: string)
    requires Recorded(st)
    ensures Recorded(Dispatch(ctx, st, ExpandedPattern(FileType, path)))
    ensures st.res <= Dispatch(ctx, st, ExpandedPattern(FileType, path)).res
  {
    if !ctx.env.ignores(ctx.matcher, path) && path !in st.seen {
      var r := st.res + [ExpandedPath(path, false, "")];
      assert forall i | 0 <= i < |st.res| :: r[i] == st.res[i];
    }
  }

  lemma DirectoryRecorded(ctx: Ctx, st: State, path: string)
    requires Recorded(st)
    ensures Recorded(Dispatch(ctx, st, ExpandedPattern(DirType, path)))
    ensures st.res <= Dispatch(ctx, st, ExpandedPattern(DirType, path)).res
  {
    var w := WalkRoot(ctx, st.seen, path);
    WalkRootEmits(ctx, st.seen, path);
    var errs := if w.verdict.Abort? then [ErrorEntry(DirMessage(path, w.verdict.err))] else [];
    RecordedAppendOthers(st, w.emitted + errs);
    assert st.res + w.emitted + errs == st.res + (w.emitted + errs);
  }

  lemma GlobRecorded(ctx: Ctx, st: State, path: string)
    requires Recorded(st)
    ensures Recorded(Dispatch(ctx, st, ExpandedPattern(GlobType, path)))
    ensures st.res <= Dispatch(ctx, st, ExpandedPattern(GlobType, path)).res
  {
    var run := ctx.env.glob(path);
    var g := GlobOutcome(ctx, st, path);
    GlobHitsGrows(ctx, GlobState(st.res, st.seen, false), run.hits);
    RecordedAfterGlob(st, g);
    var fail := if run.failure.Some? then [ErrorEntry(GlobMessage(path, run.failure.value))] else [];
    var none := if !g.matched && !ctx.noErr then [ErrorEntry(NoMatchMessage(path))] else [];
    RecordedAppendOthers(State(g.res, g.seen), fail + none);
    assert g.res + fail + none == g.res + (fail + none);
  }

  lemma {:induction false} DispatchAllRecorded(ctx: Ctx, st: State, eps: seq<ExpandedPattern>)
    requires Recorded(st)
    ensures Recorded(DispatchAll(ctx, st, eps))
    ensures st.res <= DispatchAll(ctx, st, eps).res
  {
    if eps != [] {
      DispatchAllRecorded(ctx, st, eps[..|eps| - 1]);
      DispatchRecorded(ctx, DispatchAll(ctx, st, eps[..|eps| - 1]), eps[|eps| - 1]);
    }
  }

  /**
   * The symlink errors come first, and no two file or glob outputs (no error,
   * ignoreUnknown false) have the same path.
   */
  lemma FileAndGlobOutputsDistinct(args: RunArgs, root: string, env: Env)
    requires Expandable(args.patterns, env)
    ensures var res := Expansion(args, root, env);
      forall i, j | 0 <= i < j < |res| :: Recordable(res[i]) && Recordable(res[j]) ==> res[i].filePath != res[j].filePath
    ensures Classify(args.patterns, env, args.noErrorOnUnmatchedPattern).errors <= Expansion(args, root, env)
  {
    var c := Classify(args.patterns, env, args.noErrorOnUnmatchedPattern);
    ClassifyErrorsAreErrors(args.patterns, env, args.noErrorOnUnmatchedPattern);
    var st := State(c.errors, {});
    assert Recorded(st);
    DispatchAllRecorded(ContextOf(args, root, env), st, c.expanded);
  }

  lemma {:induction false} ClassifyErrorsAreErrors(patterns: seq<string>, env: Env, noErr: bool)
    requires Expandable(patterns, env)
    ensures forall i | 0 <= i < |Classify(patterns, env, noErr).errors| ::
      Classify(patterns, env, noErr).errors[i].error != "" && Classify(patterns, env, noErr).errors[i].filePath == ""
      && !Classify(patterns, env, noErr).errors[i].ignoreUnknown
  {
    if patterns != [] {
      var init := patterns[..|patterns| - 1];
      assert forall i | 0 <= i < |init| :: init[i] == patterns[i];
      ClassifyErrorsAreErrors(init, env, noErr);
    }
  }

  /**
   * Directory output is checked against seen but not added to it, so a file
   * found by walking a directory is produced again by a later pattern naming
   * the same file.
   */
  lemma WalkedFileRepeats(ctx: Ctx, st: State, dir: string, file: string)
    requires ExpandedPath(file, true, "") in WalkRoot(ctx, st.seen, dir).emitted
    requires !ctx.env.ignores(ctx.matcher, file)
    ensures var after := Dispatch(ctx, Dispatch(ctx, st, ExpandedPattern(DirType, dir)), ExpandedPattern(FileType, file));
      exists i, j | 0 <= i < j < |after.res| :: after.res[i].filePath == file && after.res[j].filePath == file
  {
    var w := WalkRoot(ctx, st.seen, dir);
    WalkRootEmits(ctx, st.seen, dir);
    var k :| 0 <= k < |w.emitted| && w.emitted[k] == ExpandedPath(file, true, "");
    assert FreshWalkEntry(ctx, st.seen, w.emitted[k]);
    var mid := Dispatch(ctx, st, ExpandedPattern(DirType, dir));
    DirectoryErrors(ctx, st, dir);
    assert mid.res[|st.res| + k] == w.emitted[k];
    var after := Dispatch(ctx, mid, ExpandedPattern(FileType, file));
    assert after.res == mid.res + [ExpandedPath(file, false, "")];
    assert after.res[|st.res| + k].filePath == file && after.res[|mid.res|].filePath == file;
  }

  /**
   * Once a file or glob output names a path, no later pattern produces that
   * path again: the file and glob branches find it in seen, and the directory
   * walk skips what is in seen.
   */
  lemma ProducedPathNotRepeated(ctx: Ctx, st: State, ep: ExpandedPattern, k: nat)
    requires Recorded(st) && k < |st.res| && Recordable(st.res[k]) && st.res[k].filePath != ""
    ensures var after := Dispatch(ctx, st, ep);
      forall i | |st.res| <= i < |after.res| :: after.res[i].filePath != st.res[k].filePath
  {
    var p := st.res[k].filePath;
    assert p in st.seen;
    DispatchRecorded(ctx, st, ep);
    match ep.pathType
    case FileType =>
    case DirType =>
      var w := WalkRoot(ctx, st.seen, ep.path);
      WalkRootEmits(ctx, st.seen, ep.path);
      var after := Dispatch(ctx, st, ep);
      forall i | |st.res| <= i < |after.res| ensures after.res[i].filePath != p {
        if i < |st.res| + |w.emitted| {
          assert after.res[i] == w.emitted[i - |st.res|];
          assert FreshWalkEntry(ctx, st.seen, w.emitted[i - |st.res|]);
        }
      }
    case GlobType =>
      var run := ctx.env.glob(ep.path);
      var g := GlobOutcome(ctx, st, ep.path);
      GlobHitsGrows(ctx, GlobState(st.res, st.seen, false), run.hits);
      var after := Dispatch(ctx, st, ep);
      assert g.res <= after.res;
      forall i | |st.res| <= i < |after.res| ensures after.res[i].filePath != p {
        if i < |g.res| {
          assert after.res[i] == g.res[i];
        }
      }
  }

  /**
   * What the Go library guarantees: Lstat fails on the empty path, Join gives
   * a non-empty path whenever its first element is non-empty (it returns ""
   * only when every element is empty), and GlobWalk never reports "".
   */
  ghost predicate PathsNamed(env: Env) {
    env.lstat("").None?
    && (forall a, b :: a != "" ==> env.join(a, b) != "")
    && (forall p :: HitsNamed(env.glob(p).hits))
  }

  predicate HitNamed(h: Hit)
    decreases h
  {
    h.path != "" && forall i | 0 <= i < |h.below| :: HitNamed(h.below[i])
  }

  predicate HitsNamed(hs: seq<Hit>) {
    forall i | 0 <= i < |hs| :: HitNamed(hs[i])
  }

  /** No pattern is expanded under the empty path. */
  lemma {:induction false} ExpandedNamed(patterns: seq<string>, env: Env, noErr: bool)
    requires Expandable(patterns, env) && env.lstat("").None?
    ensures forall i | 0 <= i < |Classify(patterns, env, noErr).expanded| :: Classify(patterns, env, noErr).expanded[i].path != ""
  {
    if patterns != [] {
      var init := patterns[..|patterns| - 1];
      assert forall i | 0 <= i < |init| :: init[i] == patterns[i];
      ExpandedNamed(init, env, noErr);
    }
  }

  /** Every file a walk emits has a non-empty path, when the walk starts from one. */
  lemma {:induction false} WalkNodeNamed(ctx: Ctx, seen: set<string>, node: Node, path: string)
    requires path != "" && forall a, b :: a != "" ==> ctx.env.join(a, b) != ""
    ensures forall i | 0 <= i < |WalkNode(ctx, seen, node, path).emitted| :: WalkNode(ctx, seen, node, path).emitted[i].filePath != ""
    decreases node
  {
    if node.Folder? && DirCallback(ctx, seen, path, true).verdict == Proceed {
      WalkChildrenNamed(ctx, seen, node.children, path);
    }
  }

  lemma {:induction false} WalkChildrenNamed(ctx: Ctx, seen: set<string>, children: seq<Node>, dir: string)
    requires dir != "" && forall a, b :: a != "" ==> ctx.env.join(a, b) != ""
    ensures forall i | 0 <= i < |WalkChildren(ctx, seen, children, dir).emitted| :: WalkChildren(ctx, seen, children, dir).emitted[i].filePath != ""
    decreases children
  {
    if children != [] {
      var c := children[0];
      var w := WalkNode(ctx, seen, c, ctx.env.join(dir, c.name));
      WalkNodeNamed(ctx, seen, c, ctx.env.join(dir, c.name));
      if w.verdict == Proceed || (w.verdict == SkipDir && IsDirectory(c)) {
        WalkChildrenNamed(ctx, seen, children[1..], dir);
        var rest := WalkChildren(ctx, seen, children[1..], dir);
        assert WalkChildren(ctx, seen, children, dir).emitted == w.emitted + rest.emitted;
      }
    }
  }

  /** The files a glob walk appends have non-empty paths, when GlobWalk reports none empty. */
  predicate NamedAfter(st: GlobState, g: GlobState) {
    forall i | |st.res| <= i < |g.res| :: g.res[i].filePath != ""
  }

  lemma {:induction false} GlobHitNamed(ctx: Ctx, st: GlobState, h: Hit)
    requires HitNamed(h)
    ensures NamedAfter(st, GlobHit(ctx, st, h).1)
    decreases h
  {
    var (v, st1) := GlobCallback(ctx, st, h.path, h.isDir);
    if v == Proceed && h.isDir {
      // The callback adds nothing for a directory, so the walk below starts from st.
      assert st1.res == st.res;
      GlobHitsNamed(ctx, st1, h.below);
    }
  }

  lemma {:induction false} GlobHitsNamed(ctx: Ctx, st: GlobState, hs: seq<Hit>)
    requires HitsNamed(hs)
    ensures NamedAfter(st, GlobHits(ctx, st, hs).1)
    decreases hs
  {
    if hs != [] {
      GlobHitNamed(ctx, st, hs[0]);
      var (v, st1) := GlobHit(ctx, st, hs[0]);
      if v == Proceed || (v == SkipDir && hs[0].isDir) {
        assert HitsNamed(hs[1..]) by { assert forall i | 0 <= i < |hs| - 1 :: hs[1..][i] == hs[i + 1]; }
        GlobHitsNamed(ctx, st1, hs[1..]);
        GlobHitsGrows(ctx, st1, hs[1..]);
        var g := GlobHits(ctx, st1, hs[1..]).1;
        forall i | |st.res| <= i < |g.res| ensures g.res[i].filePath != "" {
          if i < |st1.res| {
            assert g.res[i] == st1.res[i];
          }
        }
      }
    }
  }

  /**
   * An entry is exactly one of a file to format (a non-empty path, no error) and
   * an error (a non-empty message, no path); an error is never flagged ignoreUnknown.
   */
  predicate WellFormed(e: ExpandedPath) {
    (e.filePath != "" <==> e.error == "") && (e.error != "" ==> !e.ignoreUnknown)
  }

  predicate AllWellFormed(res: seq<ExpandedPath>) {
    forall i | 0 <= i < |res| :: WellFormed(res[i])
  }

  lemma WellFormedAppend(a: seq<ExpandedPath>, b: seq<ExpandedPath>)
    requires AllWellFormed(a) && AllWellFormed(b)
    ensures AllWellFormed(a + b)
  {
    assert forall i | |a| <= i < |a + b| :: (a + b)[i] == b[i - |a|];
  }

  lemma DispatchWellFormed(ctx: Ctx, st: State, ep: ExpandedPattern)
    requires AllWellFormed(st.res) && ep.path != "" && PathsNamed(ctx.env)
    ensures AllWellFormed(Dispatch(ctx, st, ep).res)
  {
    match ep.pathType
    case FileType => WellFormedAppend(st.res, [ExpandedPath(ep.path, false, "")]);
    case DirType => DirectoryWellFormed(ctx, st, ep.path);
    case GlobType => GlobWellFormed(ctx, st, ep.path);
  }

  lemma DirectoryWellFormed(ctx: Ctx, st: State, path: string)
    requires AllWellFormed(st.res) && path != "" && PathsNamed(ctx.env)
    ensures AllWellFormed(Dispatch(ctx, st, ExpandedPattern(DirType, path)).res)
  {
    var w := WalkRoot(ctx, st.seen, path);
    MessagesNonEmpty(path);
    WalkRootEmits(ctx, st.seen, path);
    WalkNodeNamed(ctx, st.seen, ctx.env.walk(path), path);
    var errs := if w.verdict.Abort? then [ErrorEntry(DirMessage(path, w.verdict.err))] else [];
    WellFormedAppend(w.emitted, errs);
    WellFormedAppend(st.res, w.emitted + errs);
    assert st.res + w.emitted + errs == st.res + (w.emitted + errs);
  }

  lemma GlobResWellFormed(st: GlobState, g: GlobState)
    requires AllWellFormed(st.res) && GlobGrows(st, g) && NamedAfter(st, g)
    ensures AllWellFormed(g.res)
  {
    forall i | 0 <= i < |g.res| ensures WellFormed(g.res[i]) {
      if i < |st.res| {
        assert g.res[i] == st.res[i];
      }
    }
  }

  lemma GlobWellFormed(ctx: Ctx, st: State, path: string)
    requires AllWellFormed(st.res) && path != "" && PathsNamed(ctx.env)
    ensures AllWellFormed(Dispatch(ctx, st, ExpandedPattern(GlobType, path)).res)
  {
    var run := ctx.env.glob(path);
    var g := GlobOutcome(ctx, st, path);
    MessagesNonEmpty(path);
    GlobHitsGrows(ctx, GlobState(st.res, st.seen, false), run.hits);
    GlobHitsNamed(ctx, GlobState(st.res, st.seen, false), run.hits);
    GlobResWellFormed(GlobState(st.res, st.seen, false), g);
    var fail := if run.failure.Some? then [ErrorEntry(GlobMessage(path, run.failure.value))] else [];
    var none := if !g.matched && !ctx.noErr then [ErrorEntry(NoMatchMessage(path))] else [];
    WellFormedAppend(fail, none);
    WellFormedAppend(g.res, fail + none);
    assert g.res + fail + none == g.res + (fail + none);
  }

  lemma {:induction false} DispatchAllWellFormed(ctx: Ctx, st: State, eps: seq<ExpandedPattern>)
    requires AllWellFormed(st.res) && PathsNamed(ctx.env)
    requires forall i | 0 <= i < |eps| :: eps[i].path != ""
    ensures AllWellFormed(DispatchAll(ctx, st, eps).res)
  {
    if eps != [] {
      DispatchAllWellFormed(ctx, st, eps[..|eps| - 1]);
      DispatchWellFormed(ctx, DispatchAll(ctx, st, eps[..|eps| - 1]), eps[|eps| - 1]);
    }
  }

  /**
   * Every entry expandPatterns returns is exactly one of a file (non-empty path)
   * and an error (non-empty message), on a file system that never names the empty path.
   */
  lemma ExpansionWellFormed(args: RunArgs, root: string, env: Env)
    requires Expandable(args.patterns, env) && PathsNamed(env)
    ensures AllWellFormed(Expansion(args, root, env))
  {
    var c := Classify(args.patterns, env, args.noErrorOnUnmatchedPattern);
    ClassifyErrorsAreErrors(args.patterns, env, args.noErrorOnUnmatchedPattern);
    ExpandedNamed(args.patterns, env, args.noErrorOnUnmatchedPattern);
    DispatchAllWellFormed(ContextOf(args, root, env), State(c.errors, {}), c.expanded);
  }
}
