/**
 * Collection of gitignore patterns over a directory tree: ReadIgnoreFile keeps
 * the meaningful lines of one ignore file, and ReadPatterns gathers
 * .git/info/exclude, .gitignore and then every sub-directory's patterns, in
 * ascending order of priority.
 */
module GitignoreDir {
  import opened Wrappers
  import opened GoStrings

  const CommentPrefix: string := "#"
  const GitDir: string := ".git"
  const GitignoreFile: string := ".gitignore"
  const InfoExcludeFile: string := GitDir + "/info/exclude"

  /**
   * ParsePattern(line, domain). How a line is parsed is not part of this model:
   * a pattern is known by the line it came from and the domain it applies to.
   */
  datatype Pattern = Pattern(line: string, domain: seq<string>)

  /** What os.Open of an ignore file gives: the lines its scanner yields, a not-exist error, or another error. */
  datatype OpenResult = Opened(lines: seq<string>) | NotExist(err: string) | OpenFailed(err: string)

  /** The not-exist error os.Open reports for a name with no file; its wording is not modelled further. */
  const NoSuchFile: string := "no such file or directory"

  /**
   * A directory: the ignore files below it by relative name (a missing name does
   * not exist), and what os.ReadDir gives.
   */
  datatype Dir = Dir(files: map<string, OpenResult>, listing: Listing)
  datatype Listing = Listed(entries: seq<Entry>) | ListFailed(err: string)
  datatype Entry = SubDir(name: string, dir: Dir) | NonDir(name: string)

  function OpenAt(dir: Dir, file: string): OpenResult {
    if file in dir.files then dir.files[file] else NotExist(NoSuchFile)
  }

  /**
   * filepath.Join(path, name) for a path that is "" or that filepath.Clean leaves
   * as it is, and a name from a directory listing (see PlainNames). Join drops an
   * empty path and cleans its result, so "" and "." give the name alone and "/"
   * gives "/name"; any other clean path gets a separator and the name.
   */
  function Child(path: string, name: string): string {
    if path == "" || path == "." then name
    else if path == [Separator] then path + name
    else path + [Separator] + name
  }

  /** A path that Join extends by a separator and the name: not "", ".", "/" or ending in a separator. */
  predicate SlashJoined(path: string) {
    path != "" && path != "." && path[|path| - 1] != Separator
  }

  lemma ChildSlashJoined(path: string, name: string)
    requires SlashJoined(path) && name != "" && Separator !in name
    ensures Child(path, name) == path + [Separator] + name
    ensures SlashJoined(Child(path, name))
  {
    assert Child(path, name)[|Child(path, name)| - 1] == name[|name| - 1];
  }

  /** The line filter of ReadIgnoreFile: not a comment and not blank. */
  predicate Keep(s: string) {
    !HasPrefix(s, CommentPrefix) && |TrimSpace(s)| > 0
  }

  /** The patterns of the kept lines, with the domain of the directory the file is in. */
  function Kept(lines: seq<string>, path: string): seq<Pattern> {
    if lines == [] then []
    else
      var last := lines[|lines| - 1];
      Kept(lines[..|lines| - 1], path) + (if Keep(last) then [Pattern(last, Split(path, Separator))] else [])
  }

  /**
   * What ReadIgnoreFile answers for the file open gave. The declaration
   * `f, err := os.Open(...)` assigns the named result err, so a missing file
   * is returned with its not-exist error: the IsNotExist test only stops the
   * early return.
   */
  function IgnoreFilePatterns(path: string, file: OpenResult): (seq<Pattern>, Option<string>) {
    match file
    case Opened(lines) => (Kept(lines, path), None)
    case NotExist(e) => ([], Some(e))
    case OpenFailed(e) => ([], Some(e))
  }

  /** ReadIgnoreFile(path, ignoreFile): reads path/ignoreFile line by line. */
  method ReadIgnoreFile(path: string, ignoreFile: string, dir: Dir) returns (ps: seq<Pattern>, err: Option<string>)
    ensures (ps, err) == IgnoreFilePatterns(path, OpenAt(dir, ignoreFile))
  {
    ps := [];
    var f := OpenAt(dir, ignoreFile);
    match f
    case Opened(lines) =>
      for i := 0 to |lines|
        invariant ps == Kept(lines[..i], path)
      {
        var s := lines[i];
        assert lines[..i + 1][..i] == lines[..i];
        if !HasPrefix(s, CommentPrefix) && |TrimSpace(s)| > 0 {
          ps := ps + [Pattern(s, Split(path, Separator))];
        }
      }
      assert lines[..|lines|] == lines;
      return ps, None;
    case NotExist(e) =>
      return ps, Some(e);
    case OpenFailed(e) =>
      return [], Some(e);
  }

  /** The exclude and .gitignore patterns of one directory; their errors are dropped. */
  function OwnPatterns(path: string, dir: Dir): seq<Pattern> {
    IgnoreFilePatterns(path, OpenAt(dir, InfoExcludeFile)).0 + IgnoreFilePatterns(path, OpenAt(dir, GitignoreFile)).0
  }

  /** What ReadPatterns(path) answers for the tree dir below path. */
  function Collected(path: string, dir: Dir): (seq<Pattern>, Option<string>)
    decreases dir, 1
  {
    match dir.listing
    case ListFailed(e) => (OwnPatterns(path, dir), Some(e))
    case Listed(entries) => CollectEntries(path, dir, OwnPatterns(path, dir), 0)
  }

  /** The loop over the listing from entry i on, having collected acc so far. */
  function CollectEntries(path: string, dir: Dir, acc: seq<Pattern>, i: nat): (seq<Pattern>, Option<string>)
    requires dir.listing.Listed? && i <= |dir.listing.entries|
    decreases dir, 0, |dir.listing.entries| - i
  {
    var entries := dir.listing.entries;
    if i == |entries| then (acc, None)
    else
      var e := entries[i];
      if e.SubDir? && e.name != GitDir then
        var sub := Collected(Child(path, e.name), e.dir);
        if sub.1.Some? then (acc, sub.1) else CollectEntries(path, dir, acc + sub.0, i + 1)
      else CollectEntries(path, dir, acc, i + 1)
  }

  /** ReadPatterns(path): recursive over the directory tree. */
  method ReadPatterns(path: string, dir: Dir) returns (ps: seq<Pattern>, err: Option<string>)
    ensures (ps, err) == Collected(path, dir)
    decreases dir
  {
    var excludeErr, gitignoreErr;
    ps, excludeErr := ReadIgnoreFile(path, InfoExcludeFile, dir);
    var subps;
    subps, gitignoreErr := ReadIgnoreFile(path, GitignoreFile, dir);
    ps := ps + subps;

    if dir.listing.ListFailed? {
      return ps, Some(dir.listing.err);
    }
    var fis := dir.listing.entries;
    for i := 0 to |fis|
      invariant fis == dir.listing.entries
      invariant CollectEntries(path, dir, ps, i) == Collected(path, dir)
    {
      var fi := fis[i];
      if fi.SubDir? && fi.name != GitDir {
        var sub, e := ReadPatterns(Child(path, fi.name), fi.dir);
        if e.Some? {
          return ps, e;
        }
        if |sub| > 0 {
          ps := ps + sub;
        } else {
          assert ps + sub == ps;
        }
      }
    }
    return ps, None;
  }

  /** Keep in plain terms: the line does not start with '#' and is not all white space. */
  lemma KeepMeans(s: string)
    ensures Keep(s) <==> !(CommentPrefix <= s) && !AllSpace(s)
  {
    TrimSpaceEmpty(s);
  }

  /** The filter works line by line: lines appended to a file add their own patterns after the others. */
  lemma {:induction false} KeptAppend(a: seq<string>, b: seq<string>, path: string)
    ensures Kept(a + b, path) == Kept(a, path) + Kept(b, path)
    decreases |b|
  {
    if b == [] {
      assert a + b == a;
    } else {
      var b' := b[..|b| - 1];
      assert (a + b)[..|a + b| - 1] == a + b';
      KeptAppend(a, b', path);
    }
  }

  /** One line gives one pattern, for the directory's domain, exactly when it is kept. */
  lemma KeptLine(s: string, path: string)
    ensures Kept([s], path) == if Keep(s) then [Pattern(s, Split(path, Separator))] else []
  {
    assert [s][..0] == [];
  }

  /** Every pattern comes from a kept line of the file and has the domain of path. */
  lemma {:induction false} KeptSound(lines: seq<string>, path: string)
    ensures forall p | p in Kept(lines, path) :: p.line in lines && Keep(p.line) && p.domain == Split(path, Separator)
    ensures |Kept(lines, path)| <= |lines|
  {
    if lines != [] {
      var init := lines[..|lines| - 1];
      KeptSound(init, path);
      assert forall l | l in init :: l in lines;
    }
  }

  /**
   * A file that does not open, missing or failing, is no patterns and the open
   * error; a file that opens never reports an error.
   */
  lemma OpenOutcomes(path: string, dir: Dir, file: string)
    ensures !OpenAt(dir, file).Opened? ==> IgnoreFilePatterns(path, OpenAt(dir, file)) == ([], Some(OpenAt(dir, file).err))
    ensures file !in dir.files ==> IgnoreFilePatterns(path, OpenAt(dir, file)) == ([], Some(NoSuchFile))
    ensures OpenAt(dir, file).Opened? ==> IgnoreFilePatterns(path, OpenAt(dir, file)).1 == None
  {
  }

  /**
   * ReadPatterns drops the errors of its own two ignore files: one that cannot be
   * opened, for whatever reason, gives the same result as any other that cannot.
   */
  lemma IgnoreFileErrorDropped(path: string, dir: Dir, file: string, other: OpenResult)
    requires file == InfoExcludeFile || file == GitignoreFile
    requires !OpenAt(dir, file).Opened? && !other.Opened?
    ensures Collected(path, dir.(files := dir.files[file := other])) == Collected(path, dir)
  {
    var dir' := dir.(files := dir.files[file := other]);
    assert OwnPatterns(path, dir') == OwnPatterns(path, dir);
    if dir.listing.Listed? {
      CollectEntriesSameListing(path, dir', dir, OwnPatterns(path, dir), 0);
    }
  }

  // The loop depends on the listing only.
  lemma {:induction false} CollectEntriesSameListing(path: string, d1: Dir, d2: Dir, acc: seq<Pattern>, i: nat)
    requires d1.listing == d2.listing && d1.listing.Listed? && i <= |d1.listing.entries|
    ensures CollectEntries(path, d1, acc, i) == CollectEntries(path, d2, acc, i)
    decreases |d1.listing.entries| - i
  {
    if i < |d1.listing.entries| {
      var e := d1.listing.entries[i];
      if e.SubDir? && e.name != GitDir {
        var sub := Collected(Child(path, e.name), e.dir);
        CollectEntriesSameListing(path, d1, d2, acc + sub.0, i + 1);
      } else {
        CollectEntriesSameListing(path, d1, d2, acc, i + 1);
      }
    }
  }

  /** A listing that fails still returns the directory's own patterns, with the error. */
  lemma ListingErrorKeepsOwn(path: string, dir: Dir)
    requires dir.listing.ListFailed?
    ensures Collected(path, dir) == (OwnPatterns(path, dir), Some(dir.listing.err))
  {
  }

  /** The loop only appends: what was collected before it is a prefix of what it returns. */
  lemma {:induction false} CollectEntriesExtends(path: string, dir: Dir, acc: seq<Pattern>, i: nat)
    requires dir.listing.Listed? && i <= |dir.listing.entries|
    ensures acc <= CollectEntries(path, dir, acc, i).0
    decreases |dir.listing.entries| - i
  {
    var entries := dir.listing.entries;
    if i < |entries| {
      var e := entries[i];
      if e.SubDir? && e.name != GitDir {
        var sub := Collected(Child(path, e.name), e.dir);
        if sub.1.None? {
          CollectEntriesExtends(path, dir, acc + sub.0, i + 1);
        }
      } else {
        CollectEntriesExtends(path, dir, acc, i + 1);
      }
    }
  }

  /**
   * The result starts with the .git/info/exclude patterns and then the
   * .gitignore patterns of the directory itself, errors or not.
   */
  lemma OwnPatternsFirst(path: string, dir: Dir)
    ensures IgnoreFilePatterns(path, OpenAt(dir, InfoExcludeFile)).0 + IgnoreFilePatterns(path, OpenAt(dir, GitignoreFile)).0
      <= Collected(path, dir).0
  {
    if dir.listing.Listed? {
      CollectEntriesExtends(path, dir, OwnPatterns(path, dir), 0);
    }
  }

  /** Every name in the tree is one path element, as in any real directory listing: not empty, ".", ".." or holding a separator. */
  predicate PlainNames(dir: Dir)
    decreases dir
  {
    dir.listing.Listed? ==>
      forall i | 0 <= i < |dir.listing.entries| ::
        dir.listing.entries[i].name !in {"", ".", ".."} && Separator !in dir.listing.entries[i].name
        && (dir.listing.entries[i].SubDir? ==> PlainNames(dir.listing.entries[i].dir))
  }

  /** No two entries of a listing share a name, as in any real directory, at every level. */
  predicate DistinctNames(dir: Dir)
    decreases dir
  {
    dir.listing.Listed? ==>
      (forall i, j | 0 <= i < j < |dir.listing.entries| :: dir.listing.entries[i].name != dir.listing.entries[j].name)
      && forall i | 0 <= i < |dir.listing.entries| ::
        dir.listing.entries[i].SubDir? ==> DistinctNames(dir.listing.entries[i].dir)
  }

  /**
   * A domain below root: it extends root by the names of directories walked
   * into, none of them .git.
   */
  predicate Below(domain: seq<string>, root: seq<string>) {
    root <= domain && forall k | |root| <= k < |domain| :: domain[k] != GitDir
  }

  predicate AllBelow(ps: seq<Pattern>, root: seq<string>) {
    forall i | 0 <= i < |ps| :: Below(ps[i].domain, root)
  }

  lemma OwnPatternsDomain(path: string, dir: Dir)
    ensures forall i | 0 <= i < |OwnPatterns(path, dir)| :: OwnPatterns(path, dir)[i].domain == Split(path, Separator)
  {
    var a: seq<Pattern> := IgnoreFilePatterns(path, OpenAt(dir, InfoExcludeFile)).0;
    var b: seq<Pattern> := IgnoreFilePatterns(path, OpenAt(dir, GitignoreFile)).0;
    if OpenAt(dir, InfoExcludeFile).Opened? {
      KeptSound(OpenAt(dir, InfoExcludeFile).lines, path);
    }
    if OpenAt(dir, GitignoreFile).Opened? {
      KeptSound(OpenAt(dir, GitignoreFile).lines, path);
    }
    forall i | 0 <= i < |a + b| ensures (a + b)[i].domain == Split(path, Separator) {
      if i < |a| {
        assert (a + b)[i] == a[i] && a[i] in a;
      } else {
        assert (a + b)[i] == b[i - |a|] && b[i - |a|] in b;
      }
    }
  }

  /**
   * Every pattern ReadPatterns collects applies to path itself or to a directory
   * below it reached without entering .git: the domain is path split on the
   * separator, followed by the names walked into. This needs a path that Join
   * extends by '/' and a name; DotRootDomain shows the "." root, where it fails.
   */
  lemma {:induction false} CollectedDomains(path: string, dir: Dir)
    requires SlashJoined(path) && PlainNames(dir)
    ensures AllBelow(Collected(path, dir).0, Split(path, Separator))
    decreases dir, 1
  {
    OwnPatternsDomain(path, dir);
    var root := Split(path, Separator);
    assert AllBelow(OwnPatterns(path, dir), root);
    if dir.listing.Listed? {
      CollectEntriesDomains(path, dir, OwnPatterns(path, dir), 0);
    }
  }

  /**
   * With the root ".", Join drops the root: the patterns of a sub-directory's own
   * ignore files get the domain [name], which is not below the root's domain ["."].
   */
  lemma DotRootDomain(name: string, sub: Dir)
    requires name != "" && name != "." && Separator !in name
    ensures Child(".", name) == name && Split(".", Separator) == ["."]
    ensures forall x | x in OwnPatterns(Child(".", name), sub) :: x.domain == [name] && !Below(x.domain, Split(".", Separator))
  {
    assert Child(".", name) == name;
    OwnPatternsDomain(name, sub);
    SplitNoSeparator(name, Separator);
    SplitNoSeparator(".", Separator);
    forall x | x in OwnPatterns(name, sub) ensures x.domain == [name] && !Below(x.domain, ["."]) {
      var k :| 0 <= k < |OwnPatterns(name, sub)| && OwnPatterns(name, sub)[k] == x;
      assert x.domain[0] != ".";
    }
  }

  lemma {:induction false} CollectEntriesDomains(path: string, dir: Dir, acc: seq<Pattern>, i: nat)
    requires dir.listing.Listed? && i <= |dir.listing.entries| && SlashJoined(path) && PlainNames(dir)
    requires AllBelow(acc, Split(path, Separator))
    ensures AllBelow(CollectEntries(path, dir, acc, i).0, Split(path, Separator))
    decreases dir, 0, |dir.listing.entries| - i
  {
    var entries := dir.listing.entries;
    var root := Split(path, Separator);
    if i < |entries| {
      var e := entries[i];
      if e.SubDir? && e.name != GitDir {
        var sub := Collected(Child(path, e.name), e.dir);
        if sub.1.None? {
          ChildSlashJoined(path, e.name);
          CollectedDomains(Child(path, e.name), e.dir);
          SplitChild(path, e.name);
          assert Split(Child(path, e.name), Separator) == root + [e.name];
          forall k | 0 <= k < |sub.0| ensures Below(sub.0[k].domain, root) {
            var d := sub.0[k].domain;
            assert Below(d, root + [e.name]);
            assert d[|root|] == e.name;
          }
          AllBelowAppend(acc, sub.0, root);
          CollectEntriesDomains(path, dir, acc + sub.0, i + 1);
        }
      } else {
        CollectEntriesDomains(path, dir, acc, i + 1);
      }
    }
  }

  lemma AllBelowAppend(a: seq<Pattern>, b: seq<Pattern>, root: seq<string>)
    requires AllBelow(a, root) && AllBelow(b, root)
    ensures AllBelow(a + b, root)
  {
    forall i | 0 <= i < |a + b| ensures Below((a + b)[i].domain, root) {
      if i >= |a| {
        assert (a + b)[i] == b[i - |a|];
      }
    }
  }

  /**
   * Ascending priority: no pattern is followed by a pattern of a directory that
   * strictly contains its own, so patterns of a directory come before those of
   * the directories below it.
   */
  predicate AncestorsFirst(ps: seq<Pattern>) {
    forall i, j | 0 <= i < j < |ps| :: !(ps[j].domain < ps[i].domain)
  }

  lemma AncestorsFirstAppend(a: seq<Pattern>, b: seq<Pattern>)
    requires AncestorsFirst(a) && AncestorsFirst(b)
    requires forall i, j | 0 <= i < |a| && 0 <= j < |b| :: !(b[j].domain < a[i].domain)
    ensures AncestorsFirst(a + b)
  {
    forall i, j | 0 <= i < j < |a + b| ensures !((a + b)[j].domain < (a + b)[i].domain) {
      if j < |a| {
        assert (a + b)[i] == a[i] && (a + b)[j] == a[j];
      } else if i < |a| {
        assert (a + b)[i] == a[i] && (a + b)[j] == b[j - |a|];
      } else {
        assert (a + b)[i] == b[i - |a|] && (a + b)[j] == b[j - |a|];
      }
    }
  }

  function NamesBefore(entries: seq<Entry>, i: nat): set<string>
    requires i <= |entries|
  {
    set k | 0 <= k < i :: entries[k].name
  }

  // A pattern collected so far: of the directory itself, or of a directory below an entry already walked.
  predicate FromEarlier(x: Pattern, root: seq<string>, entries: seq<Entry>, i: nat)
    requires i <= |entries|
  {
    x.domain == root || (|root| < |x.domain| && root <= x.domain && x.domain[|root|] in NamesBefore(entries, i))
  }

  /** With plain, distinct names, ReadPatterns keeps ancestors' patterns before their descendants'. */
  lemma {:induction false} CollectedAncestorsFirst(path: string, dir: Dir)
    requires SlashJoined(path) && PlainNames(dir) && DistinctNames(dir)
    ensures AncestorsFirst(Collected(path, dir).0)
    decreases dir, 1
  {
    var own := OwnPatterns(path, dir);
    OwnPatternsStart(path, dir);
    if dir.listing.Listed? {
      CollectEntriesAncestorsFirst(path, dir, own, 0);
    }
  }

  // The directory's own patterns all have its domain, so none of them is an ancestor of another.
  lemma OwnPatternsStart(path: string, dir: Dir)
    ensures AncestorsFirst(OwnPatterns(path, dir))
    ensures dir.listing.Listed? ==>
      forall x | x in OwnPatterns(path, dir) :: FromEarlier(x, Split(path, Separator), dir.listing.entries, 0)
  {
    var own := OwnPatterns(path, dir);
    OwnPatternsDomain(path, dir);
    if dir.listing.Listed? {
      forall x | x in own ensures FromEarlier(x, Split(path, Separator), dir.listing.entries, 0) {
        var k :| 0 <= k < |own| && own[k] == x;
      }
    }
  }

  lemma {:induction false} CollectEntriesAncestorsFirst(path: string, dir: Dir, acc: seq<Pattern>, i: nat)
    requires dir.listing.Listed? && i <= |dir.listing.entries| && SlashJoined(path) && PlainNames(dir) && DistinctNames(dir)
    requires AncestorsFirst(acc)
    requires forall x | x in acc :: FromEarlier(x, Split(path, Separator), dir.listing.entries, i)
    ensures AncestorsFirst(CollectEntries(path, dir, acc, i).0)
    decreases dir, 0, |dir.listing.entries| - i
  {
    var entries := dir.listing.entries;
    var root := Split(path, Separator);
    if i < |entries| {
      var e := entries[i];
      assert NamesBefore(entries, i) <= NamesBefore(entries, i + 1);
      if e.SubDir? && e.name != GitDir {
        var sub := Collected(Child(path, e.name), e.dir);
        if sub.1.None? {
          ChildSlashJoined(path, e.name);
          CollectedAncestorsFirst(Child(path, e.name), e.dir);
          CollectedDomains(Child(path, e.name), e.dir);
          SplitChild(path, e.name);
          var below := root + [e.name];
          assert Split(Child(path, e.name), Separator) == below;
          forall y | y in sub.0 ensures below <= y.domain && y.domain[|root|] == e.name {
            var k :| 0 <= k < |sub.0| && sub.0[k] == y;
            assert Below(sub.0[k].domain, below);
          }
          assert e.name !in NamesBefore(entries, i);
          forall a, b | 0 <= a < |acc| && 0 <= b < |sub.0| ensures !(sub.0[b].domain < acc[a].domain) {
            var x, y := acc[a], sub.0[b];
            assert x in acc && y in sub.0;
          }
          AncestorsFirstAppend(acc, sub.0);
          forall x | x in acc + sub.0 ensures FromEarlier(x, root, entries, i + 1) {
            if x in sub.0 {
              assert e.name in NamesBefore(entries, i + 1);
            }
          }
          CollectEntriesAncestorsFirst(path, dir, acc + sub.0, i + 1);
        }
      } else {
        CollectEntriesAncestorsFirst(path, dir, acc, i + 1);
      }
    }
  }

  /** The patterns of the sub-directories of entries in listing order, .git and non-directories skipped. */
  function SubtreePatterns(path: string, entries: seq<Entry>): seq<Pattern> {
    if entries == [] then []
    else
      var e := entries[0];
      (if e.SubDir? && e.name != GitDir then Collected(Child(path, e.name), e.dir).0 else [])
        + SubtreePatterns(path, entries[1..])
  }

  /**
   * Without an error, ReadPatterns answers the directory's own patterns followed
   * by each sub-directory's, in the order the listing gives them.
   */
  lemma ListingOrder(path: string, dir: Dir)
    requires Collected(path, dir).1 == None
    ensures dir.listing.Listed?
    ensures Collected(path, dir).0 == OwnPatterns(path, dir) + SubtreePatterns(path, dir.listing.entries)
  {
    CollectEntriesInOrder(path, dir, OwnPatterns(path, dir), 0);
    assert dir.listing.entries[0..] == dir.listing.entries;
  }

  lemma {:induction false} CollectEntriesInOrder(path: string, dir: Dir, acc: seq<Pattern>, i: nat)
    requires dir.listing.Listed? && i <= |dir.listing.entries|
    requires CollectEntries(path, dir, acc, i).1 == None
    ensures CollectEntries(path, dir, acc, i).0 == acc + SubtreePatterns(path, dir.listing.entries[i..])
    decreases |dir.listing.entries| - i
  {
    var entries := dir.listing.entries;
    if i == |entries| {
      assert acc + [] == acc;
    } else {
      var e := entries[i];
      assert entries[i..][1..] == entries[i + 1..];
      if e.SubDir? && e.name != GitDir {
        var sub := Collected(Child(path, e.name), e.dir);
        CollectEntriesInOrder(path, dir, acc + sub.0, i + 1);
        assert acc + sub.0 + SubtreePatterns(path, entries[i + 1..]) == acc + (sub.0 + SubtreePatterns(path, entries[i + 1..]));
      } else {
        CollectEntriesInOrder(path, dir, acc, i + 1);
        assert [] + SubtreePatterns(path, entries[i + 1..]) == SubtreePatterns(path, entries[i + 1..]);
      }
    }
  }

  /** A sub-directory that fails ends the loop: the patterns so far come back with its error. */
  lemma SubdirErrorStops(path: string, dir: Dir, acc: seq<Pattern>, i: nat)
    requires dir.listing.Listed? && i < |dir.listing.entries|
    requires dir.listing.entries[i].SubDir? && dir.listing.entries[i].name != GitDir
    requires Collected(Child(path, dir.listing.entries[i].name), dir.listing.entries[i].dir).1.Some?
    ensures CollectEntries(path, dir, acc, i)
      == (acc, Collected(Child(path, dir.listing.entries[i].name), dir.listing.entries[i].dir).1)
  {
  }

  /** Two entries ReadPatterns cannot tell apart: equal, both named .git, or both non-directories. */
  predicate SameForCollection(e1: Entry, e2: Entry) {
    e1 == e2 || (e1.name == GitDir && e2.name == GitDir) || (e1.NonDir? && e2.NonDir?)
  }

  /**
   * A .git directory is never read: whatever a .git entry holds, or whether it is
   * a directory at all, the result is the same; nor does any non-directory entry
   * matter, whatever its name.
   */
  lemma GitDirNeverRead(path: string, d1: Dir, d2: Dir)
    requires d1.files == d2.files && d1.listing.Listed? && d2.listing.Listed?
    requires |d1.listing.entries| == |d2.listing.entries|
    requires forall k | 0 <= k < |d1.listing.entries| :: SameForCollection(d1.listing.entries[k], d2.listing.entries[k])
    ensures Collected(path, d1) == Collected(path, d2)
  {
    assert OwnPatterns(path, d1) == OwnPatterns(path, d2);
    GitEntriesSkipped(path, d1, d2, OwnPatterns(path, d1), 0);
  }

  lemma {:induction false} GitEntriesSkipped(path: string, d1: Dir, d2: Dir, acc: seq<Pattern>, i: nat)
    requires d1.listing.Listed? && d2.listing.Listed?
    requires |d1.listing.entries| == |d2.listing.entries| && i <= |d1.listing.entries|
    requires forall k | 0 <= k < |d1.listing.entries| :: SameForCollection(d1.listing.entries[k], d2.listing.entries[k])
    ensures CollectEntries(path, d1, acc, i) == CollectEntries(path, d2, acc, i)
    decreases |d1.listing.entries| - i
  {
    if i < |d1.listing.entries| {
      var e := d1.listing.entries[i];
      if e.SubDir? && e.name != GitDir {
        assert d2.listing.entries[i] == e;
        var sub := Collected(Child(path, e.name), e.dir);
        GitEntriesSkipped(path, d1, d2, acc + sub.0, i + 1);
      } else {
        GitEntriesSkipped(path, d1, d2, acc, i + 1);
      }
    }
  }
}
