/**
 * mergePrettierConfig: copies the user's top-level Prettier options into the
 * per-file option map, then applies the `overrides` entries whose `files`
 * patterns match the file and whose `excludeFiles` patterns do not.
 */
module PrettierConfig {
  import opened Config
  import opened GoStrings

  /** doublestar.Match(pattern, name), with a malformed pattern reading as no match. */
  type GlobMatch = (string, string) -> bool

  /** toStrings: a string is a one-pattern list, a []string is itself, anything else gives none. */
  function ToStrings(v: Value): (r: seq<string>)
    ensures v.Str? ==> r == [v.s]
    ensures v.Strings? ==> r == v.items
    ensures !v.Str? && !v.Strings? ==> r == []
  {
    match v
    case Str(s) => [s]
    case Strings(items) => items
    case _ => []
  }

  /** What pattern p is matched against: the base name of path when p has no '/'. */
  function MatchTarget(p: string, path: string): string {
    if '/' !in p then Base(path) else path
  }

  predicate MatchesAny(patterns: seq<string>, path: string, glob: GlobMatch) {
    exists i | 0 <= i < |patterns| :: glob(patterns[i], MatchTarget(patterns[i], path))
  }

  /** matchAny: true as soon as one pattern matches its target. */
  method MatchAny(patterns: seq<string>, path: string, glob: GlobMatch) returns (b: bool)
    ensures b <==> MatchesAny(patterns, path, glob)
  {
    for i := 0 to |patterns|
      invariant forall j | 0 <= j < i :: !glob(patterns[j], MatchTarget(patterns[j], path))
    {
      var p := patterns[i];
      var target := path;
      if '/' !in p {
        target := Base(path);
      }
      if glob(p, target) {
        return true;
      }
    }
    return false;
  }

  /** True for the one user entry the first loop holds back: an `overrides` list of tables. */
  predicate IsOverrideList(user: map<string, Value>, k: string)
    requires k in user
  {
    k == "overrides" && user[k].Tables?
  }

  // Lines 13-21: the user entries that are copied as they are.
  function TopLevel(user: map<string, Value>): map<string, Value> {
    map k | k in user && !IsOverrideList(user, k) :: user[k]
  }

  function OverridesOf(user: map<string, Value>): seq<map<string, Value>> {
    if "overrides" in user && user["overrides"].Tables? then user["overrides"].tables else []
  }

  predicate Excluded(o: map<string, Value>, path: string, glob: GlobMatch) {
    MatchesAny(ToStrings(Get(o, "excludeFiles")), path, glob)
  }

  predicate Included(o: map<string, Value>, path: string, glob: GlobMatch) {
    MatchesAny(ToStrings(Get(o, "files")), path, glob)
  }

  /** An override takes effect when not excluded, included, and its options are a table. */
  predicate Applies(o: map<string, Value>, path: string, glob: GlobMatch) {
    !Excluded(o, path, glob) && Included(o, path, glob) && Get(o, "options").Table?
  }

  // Lines 27-40: one override, its options copied over the map when it applies.
  function ApplyOverride(cfg: map<string, Value>, o: map<string, Value>, path: string, glob: GlobMatch): map<string, Value> {
    if Excluded(o, path, glob) then cfg
    else if Included(o, path, glob) && Get(o, "options").Table? then cfg + Get(o, "options").fields
    else cfg
  }

  /** The overrides applied in list order. */
  function ApplyOverrides(cfg: map<string, Value>, os: seq<map<string, Value>>, path: string, glob: GlobMatch): map<string, Value> {
    if os == [] then cfg
    else ApplyOverride(ApplyOverrides(cfg, os[..|os| - 1], path, glob), os[|os| - 1], path, glob)
  }

  /** The option map after mergePrettierConfig(merged, user, path). */
  function Merged(merged: map<string, Value>, user: map<string, Value>, path: string, glob: GlobMatch): map<string, Value> {
    ApplyOverrides(merged + TopLevel(user), OverridesOf(user), path, glob)
  }

  /** mergePrettierConfig: writes into mergedCfg in place. */
  method MergePrettierConfig(mergedCfg: Options, userCfg: map<string, Value>, path: string, glob: GlobMatch)
    modifies mergedCfg
    ensures mergedCfg.entries == Merged(old(mergedCfg.entries), userCfg, path, glob)
  {
    var overrides := CopyTopLevel(mergedCfg, userCfg);
    if |overrides| == 0 {
      return;
    }
    ApplyOverridesInPlace(mergedCfg, overrides, path, glob);
  }

  /** Lines 13-21: the top-level entries copied, the list of overrides held back. */
  method CopyTopLevel(mergedCfg: Options, userCfg: map<string, Value>) returns (overrides: seq<map<string, Value>>)
    modifies mergedCfg
    ensures mergedCfg.entries == old(mergedCfg.entries) + TopLevel(userCfg)
    ensures overrides == OverridesOf(userCfg)
  {
    overrides := [];
    var keys := userCfg.Keys;
    while keys != {}
      invariant keys <= userCfg.Keys
      invariant mergedCfg.entries == old(mergedCfg.entries) + TopLevelAmong(userCfg, userCfg.Keys - keys)
      invariant overrides == if "overrides" in userCfg.Keys - keys then OverridesOf(userCfg) else []
      decreases keys
    {
      var k :| k in keys;
      var v := userCfg[k];
      TopLevelAmongGrows(userCfg, userCfg.Keys - keys, k);
      assert userCfg.Keys - (keys - {k}) == (userCfg.Keys - keys) + {k};
      keys := keys - {k};
      if k == "overrides" && v.Tables? {
        overrides := v.tables;
        continue;
      }
      mergedCfg.entries := mergedCfg.entries[k := v];
    }
    assert userCfg.Keys - keys == userCfg.Keys;
    assert TopLevelAmong(userCfg, userCfg.Keys) == TopLevel(userCfg);
  }

  // The entries of TopLevel among the keys visited so far.
  function TopLevelAmong(user: map<string, Value>, visited: set<string>): map<string, Value>
    requires visited <= user.Keys
  {
    map k | k in visited && !IsOverrideList(user, k) :: user[k]
  }

  lemma TopLevelAmongGrows(user: map<string, Value>, visited: set<string>, k: string)
    requires visited <= user.Keys && k in user && k !in visited
    ensures TopLevelAmong(user, visited + {k})
      == if IsOverrideList(user, k) then TopLevelAmong(user, visited) else TopLevelAmong(user, visited)[k := user[k]]
  {
  }

  /** Lines 27-40: each override in order, its options copied over the map when it applies. */
  method ApplyOverridesInPlace(mergedCfg: Options, overrides: seq<map<string, Value>>, path: string, glob: GlobMatch)
    modifies mergedCfg
    ensures mergedCfg.entries == ApplyOverrides(old(mergedCfg.entries), overrides, path, glob)
  {
    ghost var copied := mergedCfg.entries;
    for i := 0 to |overrides|
      invariant mergedCfg.entries == ApplyOverrides(copied, overrides[..i], path, glob)
    {
      var o := overrides[i];
      assert overrides[..i + 1][..i] == overrides[..i];
      ghost var before := mergedCfg.entries;
      assert ApplyOverrides(copied, overrides[..i + 1], path, glob) == ApplyOverride(before, o, path, glob);
      var patterns := ToStrings(Get(o, "files"));
      var ignores := ToStrings(Get(o, "excludeFiles"));

      var excluded := MatchAny(ignores, path, glob);
      if excluded {
        continue;
      }

      var included := MatchAny(patterns, path, glob);
      if included {
        var options := Get(o, "options");
        if options.Table? {
          mergedCfg.entries := mergedCfg.entries + options.fields;
        }
      }
    }
    assert overrides[..|overrides|] == overrides;
  }

  /** Every top-level key is copied, except an `overrides` that is a list of tables. */
  lemma TopLevelCopied(user: map<string, Value>)
    ensures forall k | k in user && !IsOverrideList(user, k) :: k in TopLevel(user) && TopLevel(user)[k] == user[k]
    ensures "overrides" in user && user["overrides"].Tables? ==> "overrides" !in TopLevel(user)
    ensures "overrides" in user && !user["overrides"].Tables? ==> TopLevel(user)["overrides"] == user["overrides"]
  {
  }

  /** Without a list of overrides the user's options are copied over the map and nothing else happens. */
  lemma NoOverridesCopiesUser(merged: map<string, Value>, user: map<string, Value>, path: string, glob: GlobMatch)
    requires !("overrides" in user && user["overrides"].Tables?)
    ensures Merged(merged, user, path, glob) == merged + user
    ensures Merged(map[], user, path, glob) == user
  {
    assert TopLevel(user) == user;
    assert map[] + user == user;
  }

  /** An excluded override changes nothing, whether or not its files match. */
  lemma ExcludedOverrideSkipped(cfg: map<string, Value>, o: map<string, Value>, path: string, glob: GlobMatch)
    requires Excluded(o, path, glob)
    ensures ApplyOverride(cfg, o, path, glob) == cfg
  {
  }

  /** An override whose options are not a table changes nothing. */
  lemma NonTableOptionsIgnored(cfg: map<string, Value>, o: map<string, Value>, path: string, glob: GlobMatch)
    requires !Get(o, "options").Table?
    ensures ApplyOverride(cfg, o, path, glob) == cfg
  {
  }

  /** A missing or mistyped `files` never matches, so such an override never applies. */
  lemma MistypedFilesNeverMatch(o: map<string, Value>, path: string, glob: GlobMatch)
    requires !Get(o, "files").Str? && !Get(o, "files").Strings?
    ensures !Included(o, path, glob)
    ensures !Applies(o, path, glob)
  {
  }

  /** A pattern without '/' sees only the base name of the path. */
  lemma SlashFreePatternSeesBaseName(p: string, dir: string, name: string)
    requires '/' !in p && name != [] && '/' !in name
    ensures MatchTarget(p, dir + "/" + name) == name
    ensures MatchTarget(p, name) == name
  {
    BaseOfChild(dir, name);
  }

  /** Override o takes effect on path and sets key k. */
  predicate SetsKey(o: map<string, Value>, path: string, glob: GlobMatch, k: string) {
    Applies(o, path, glob) && k in Get(o, "options").fields
  }

  // What one override does to one key.
  lemma ApplyOverrideKey(cfg: map<string, Value>, o: map<string, Value>, path: string, glob: GlobMatch, k: string)
    ensures var r := ApplyOverride(cfg, o, path, glob);
      if SetsKey(o, path, glob, k) then k in r && r[k] == Get(o, "options").fields[k]
      else (k in r <==> k in cfg) && (k in cfg ==> r[k] == cfg[k])
  {
  }

  // Dropping the last override keeps "no later one sets k" for the rest.
  lemma LaterInPrefix(os: seq<map<string, Value>>, prefix: seq<map<string, Value>>, path: string, glob: GlobMatch, i: nat, k: string)
    requires |os| > 0 && prefix == os[..|os| - 1] && i < |prefix|
    requires forall j | i < j < |os| :: !SetsKey(os[j], path, glob, k)
    ensures prefix[i] == os[i]
    ensures forall j | i < j < |prefix| :: !SetsKey(prefix[j], path, glob, k)
  {
    assert forall j | 0 <= j < |prefix| :: prefix[j] == os[j];
  }

  /**
   * Overrides apply in order, so for a key set by several matching overrides the last
   * one wins: the result holds the value of override i when no later applying override
   * sets the key.
   */
  lemma {:induction false} LastApplyingOverrideWins(cfg: map<string, Value>, os: seq<map<string, Value>>, path: string, glob: GlobMatch, i: nat, k: string)
    requires i < |os| && SetsKey(os[i], path, glob, k)
    requires forall j | i < j < |os| :: !SetsKey(os[j], path, glob, k)
    ensures k in ApplyOverrides(cfg, os, path, glob)
    ensures ApplyOverrides(cfg, os, path, glob)[k] == Get(os[i], "options").fields[k]
  {
    var n := |os| - 1;
    var prefix := os[..n];
    ApplyOverrideKey(ApplyOverrides(cfg, prefix, path, glob), os[n], path, glob, k);
    if i < n {
      LaterInPrefix(os, prefix, path, glob, i, k);
      LastApplyingOverrideWins(cfg, prefix, path, glob, i, k);
    }
  }

  /** A key that no applying override sets keeps the value it had before the overrides. */
  lemma {:induction false} UnsetKeyUntouched(cfg: map<string, Value>, os: seq<map<string, Value>>, path: string, glob: GlobMatch, k: string)
    requires forall j | 0 <= j < |os| :: !SetsKey(os[j], path, glob, k)
    ensures (k in ApplyOverrides(cfg, os, path, glob)) == (k in cfg)
    ensures k in cfg ==> ApplyOverrides(cfg, os, path, glob)[k] == cfg[k]
  {
    if os != [] {
      var prefix := os[..|os| - 1];
      assert forall j | 0 <= j < |prefix| :: prefix[j] == os[j];
      UnsetKeyUntouched(cfg, prefix, path, glob, k);
      ApplyOverrideKey(ApplyOverrides(cfg, prefix, path, glob), os[|os| - 1], path, glob, k);
    }
  }
}
