# go-prettier runner core, modelled in Dafny

go-prettier runs Prettier inside a WebAssembly runtime and is driven from Go.
The Go side decides what to format and with which options, and this project
models that decision-making:

- **Pattern expansion** (`ExpandPaths`, `ExpandPathsProps`). `expandPatterns`
  turns the command-line patterns into an ordered list of results. Each result
  is a file to format, with an ignore-unknown flag, or an error message. Along
  the way it:
  - assembles an ignore text from the built-in VCS names, `node_modules`, the
    ignore files and the `!`-negated patterns;
  - classifies each pattern by what `Lstat` reports;
  - adds regular files directly, walks directories with `filepath.Walk` and
    globs with `doublestar.GlobWalk`, pruning ignored entries;
  - drops paths already produced, using a `seen` set.
- **Ignore-file collection** (`GitignoreDir`). `ReadIgnoreFile` keeps the
  meaningful lines of one ignore file. `ReadPatterns` gathers
  `.git/info/exclude`, then `.gitignore`, then every sub-directory's patterns,
  in ascending order of priority.
- **Prettier override merging** (`PrettierConfig`, `PrettierConfigCases`).
  `mergePrettierConfig` copies the top-level options. It then applies the
  `overrides` entries in order, honouring `excludeFiles` and matching a pattern
  with no slash against the base name.
- **EditorConfig to Prettier options** (`EditorConfig`). `fillEditorConfig`
  derives `useTabs`, `tabWidth`, `printWidth`, `singleQuote` and `endOfLine`
  from an EditorConfig definition. It writes them into the caller's map.
- **Configuration discovery** (`Runner`). `findConfigFile` walks from the
  working directory up to the root. `Run` chooses the configuration from
  `--config`, `--no-config`, or the first conventional file name found upward.

Shared pieces:

- `Config` has the dynamic option value, and the option map as a class shared
  by reference.
- `GoStrings` has the Go library string and path functions the code calls.
- `Wrappers` has `Option` and `Result`.

The code that updates state in place is modelled as methods over a class or
over local sequences and sets. Their loops carry invariants. Each such method
is proved equal to a specification function. The properties are stated as
lemmas about those functions:

- `mergePrettierConfig` and `fillEditorConfig` update an `Options` object;
- `matchAny`, `findConfigFile` and the configuration switch are loops;
- `ReadIgnoreFile` and `ReadPatterns` are loops and recursion;
- `expandPatterns` is two loops and three kinds of walk.

The file system, `filepath.Abs`/`Join`, the gitignore matcher and the glob
library are parameters of the model (the `Env`, `Dir`, `abs`/`statOk` and
`GlobMatch` arguments). The model says nothing about how they behave beyond
what the code relies on.

Where the code and the documented intent differ, the model follows the code:

- A symbolic-link pattern yields an error only when
  `NoErrorOnUnmatchedPattern` is set. Otherwise it is skipped with a debug
  message (internal/runner/expandpaths.go:73-78). See
  `ExpandPathsProps.SymlinkErrorOnlyWithFlag`.
- Files found by walking a directory are checked against `seen` but never
  added to it (internal/runner/expandpaths.go:124-126). A later pattern can
  therefore produce the same file again. See `ExpandPathsProps.WalkedFileRepeats`.
- Duplicates are detected on the path string as written, not on the absolute
  path.
- An ignored regular file makes the directory-walk callback return `SkipDir`
  (internal/runner/expandpaths.go:116-118). For a file, `filepath.Walk` then
  skips the rest of that directory. With `*.log` ignored, a directory holding
  `a.log` and `a.ts` in that order emits nothing for `a.ts`. See
  `ExpandPathsProps.IgnoredFileSkipsRest`.
- `ReadIgnoreFile` declares `err` as a named result, and `f, err :=` at
  internal/gitignore/dir.go:19 assigns to it. A missing file therefore comes
  back with no patterns and the not-exist error, not with a nil error. The
  test at line 30 only keeps other errors from the early return.
  `ReadPatterns` discards both ignore-file errors (lines 41 and 43), so the
  collection is unaffected. See `GitignoreDir.OpenOutcomes` and
  `GitignoreDir.IgnoreFileErrorDropped`.
- internal/runner/runner.go:122 calls `expandPatterns` without its `root`
  argument, while the definition at internal/runner/expandpaths.go:38 takes
  one. The model takes `root` as an explicit parameter.

## Model

| member | source | states |
|---|---|---|
| ExpandPaths.ExpandPatterns | internal/runner/expandpaths.go:38-164 | the result list is the expansion function of the arguments, root and environment: the ignore text, then classification, then the second loop over the expanded patterns |
| ExpandPaths.ReadIgnoreText | internal/runner/expandpaths.go:43-66 | the ignore text is the built-in lines followed by the lines of every ignore file that opens, in order, each ended by a newline |
| ExpandPaths.AppendLines | internal/runner/expandpaths.go:62-65 | appending scanned lines one by one keeps the text equal to the text of all lines so far |
| ExpandPaths.ClassifyPatterns | internal/runner/expandpaths.go:68-89 | the errors, the expanded patterns and the extended ignore text are those of the classification function |
| ExpandPaths.ExpandAll | internal/runner/expandpaths.go:94-161 | the second loop, starting from an empty seen set, gives the results of dispatching every expanded pattern in order |
| ExpandPaths.ExpandFile | internal/runner/expandpaths.go:97-105 | a file pattern is skipped when ignored or seen, and is otherwise appended with ignoreUnknown false and recorded in seen |
| ExpandPaths.ExpandDirectory | internal/runner/expandpaths.go:106-131 | a directory pattern appends what the walk emits and one error when the walk fails; seen is unchanged |
| ExpandPaths.ExpandGlob | internal/runner/expandpaths.go:132-159 | a glob pattern appends its new matches and records them, then a walk error, then the no-match error |
| ExpandPaths.BuiltinText | internal/runner/expandpaths.go:43-53 | the built-in lines render exactly as the built-in text, plus the node_modules text when node modules are excluded |
| ExpandPathsProps.TextAppend | internal/runner/expandpaths.go:64 | the text of concatenated line lists is the concatenation of their texts |
| ExpandPathsProps.IgnoreTextLayout | internal/runner/expandpaths.go:43-66 | the ignore text is the built-in text, optional node_modules, the ignore files' text, then the negations' text |
| ExpandPathsProps.BuiltinNames | internal/runner/expandpaths.go:43-53 | .git, .sl, .svn and .hg are always ignore lines; node_modules is a built-in line exactly when node modules are not requested |
| ExpandPathsProps.IgnoreFilesInOrder | internal/runner/expandpaths.go:55-66 | the ignore-file lines of two lists of paths are those of the first list followed by those of the second |
| ExpandPathsProps.IgnoreFileAlone | internal/runner/expandpaths.go:56-59 | an ignore file that cannot be opened contributes no lines; one that opens contributes all its lines |
| ExpandPathsProps.ClassifyAppend | internal/runner/expandpaths.go:68-89 | classifying two lists of patterns is classifying each and combining the results in order |
| ExpandPathsProps.ClassifyOne | internal/runner/expandpaths.go:69-88 | the outcome for each Lstat mode: symlink error only with the flag, file, directory, other modes nothing, missing path a negation (without '!', slashes normalised) or a glob |
| ExpandPathsProps.SymlinkErrorOnlyWithFlag | internal/runner/expandpaths.go:73-78 | classification reports no error exactly when the flag is off or no pattern is a symbolic link |
| ExpandPathsProps.MessagesNonEmpty | internal/runner/expandpaths.go:75-158 | the symlink, directory, glob and no-match messages are non-empty, for every pattern and every library error |
| ExpandPaths.DirCallback | internal/runner/expandpaths.go:111-128 | never aborts; SkipDir exactly for an ignored entry other than the base; emits one entry, the path flagged ignoreUnknown, exactly for an unseen, unignored non-directory other than the base |
| ExpandPaths.GlobCallback | internal/runner/expandpaths.go:134-153 | never aborts; SkipDir exactly for an ignored entry other than the base; an unignored non-directory other than the base sets matched, is recorded in seen and is appended when unseen; nothing else changes |
| ExpandPathsProps.WalkNodeEmits | internal/runner/expandpaths.go:107-128 | every entry a walk emits is unseen, not the base, not ignored when tested as a non-directory, flagged ignoreUnknown and without error |
| ExpandPathsProps.WalkChildrenEmits | internal/runner/expandpaths.go:107-128 | the same, for the entries of a directory in order |
| ExpandPathsProps.WalkRootEmits | internal/runner/expandpaths.go:107-128 | the same, for the walk of a whole directory pattern |
| ExpandPathsProps.BaseNeverTested | internal/runner/expandpaths.go:112-115 | the entry whose absolute path is the base is neither tested nor emitted, and the walk goes on into it |
| ExpandPathsProps.IgnoredDirectoryPruned | internal/runner/expandpaths.go:116-118 | an ignored directory yields SkipDir and nothing below it is emitted |
| ExpandPathsProps.IgnoredFileSkipsRest | internal/runner/expandpaths.go:116-118 | an ignored file yields SkipDir, which skips its remaining siblings |
| ExpandPathsProps.DirectoryErrors | internal/runner/expandpaths.go:106-131 | a directory pattern adds exactly one error when the walk fails and none otherwise, leaves seen unchanged, and keeps the emitted files in order |
| ExpandPathsProps.GlobGrowsTrans | internal/runner/expandpaths.go:147-151 | growth of the glob state (new, distinct, recorded files) composes |
| ExpandPathsProps.GlobCallbackGrows | internal/runner/expandpaths.go:134-153 | one glob callback only grows the state, sets matched for every file it accepts, and never aborts |
| ExpandPathsProps.GlobHitsGrows | internal/runner/expandpaths.go:134-153 | a whole glob walk only grows the state and never aborts on its own |
| ExpandPathsProps.GlobErrors | internal/runner/expandpaths.go:132-159 | a glob pattern adds one error per walk failure plus one when nothing matched and the flag is off; the no-match error comes last; an unmatched walk adds no files |
| ExpandPathsProps.GlobFilesNoErrors | internal/runner/expandpaths.go:147-151 | the files a glob walk adds carry no error |
| ExpandPathsProps.DispatchRecorded | internal/runner/expandpaths.go:95-160 | each iteration keeps the earlier results as a prefix, keeps every file or glob output in seen, and keeps those outputs distinct |
| ExpandPathsProps.DispatchAllRecorded | internal/runner/expandpaths.go:95-161 | the same holds after the whole second loop |
| ExpandPathsProps.FileAndGlobOutputsDistinct | internal/runner/expandpaths.go:68-163 | in the final result no two file or glob outputs share a path, and the symlink errors come first |
| ExpandPathsProps.ClassifyErrorsAreErrors | internal/runner/expandpaths.go:75 | the classification errors carry a message, no path and no ignoreUnknown flag |
| ExpandPathsProps.WalkedFileRepeats | internal/runner/expandpaths.go:124-126 | a file emitted by a directory walk is produced again by a later file pattern naming it |
| ExpandPathsProps.ProducedPathNotRepeated | internal/runner/expandpaths.go:102-104 | once a file or glob output names a path, no later pattern produces that path again |
| ExpandPathsProps.DispatchWellFormed | internal/runner/expandpaths.go:103-158 | every entry an iteration appends has exactly one of a non-empty path and a non-empty error, and an error never carries ignoreUnknown, given what Go guarantees: Lstat("") fails, Join with a non-empty first element is non-empty, and GlobWalk reports no empty path |
| ExpandPathsProps.ExpandedNamed | internal/runner/expandpaths.go:68-89 | every expanded pattern has a non-empty path when Lstat("") fails |
| ExpandPathsProps.WalkNodeNamed | internal/runner/expandpaths.go:107-128 | every path a directory walk emits is non-empty when the walk starts from a non-empty path and Join with a non-empty first element is non-empty |
| ExpandPathsProps.GlobHitsNamed | internal/runner/expandpaths.go:134-153 | every path a glob walk adds is non-empty when GlobWalk reports no empty path |
| ExpandPathsProps.ExpansionWellFormed | internal/runner/expandpaths.go:38-164 | every entry of the final result has exactly one of a non-empty path and a non-empty error, and no error carries ignoreUnknown, under the same three library facts |
| GitignoreDir.ReadIgnoreFile | internal/gitignore/dir.go:18-35 | the patterns and error are those the open result determines: the kept lines and no error for an opened file, no patterns and the open error otherwise, the not-exist error included |
| GitignoreDir.ReadPatterns | internal/gitignore/dir.go:40-67 | the patterns and error are the recursive collection function of the directory |
| GitignoreDir.KeepMeans | internal/gitignore/dir.go:26 | a line is kept exactly when it does not start with '#' and is not all white space |
| GitignoreDir.KeptAppend | internal/gitignore/dir.go:24-29 | filtering preserves order: the kept lines of a concatenation are the kept lines of each part in turn |
| GitignoreDir.KeptLine | internal/gitignore/dir.go:26-27 | a single line gives one pattern with the file's domain when kept, none otherwise |
| GitignoreDir.KeptSound | internal/gitignore/dir.go:24-29 | every pattern comes from a kept line of the file and has the directory's path split on the separator as its domain |
| GitignoreDir.OpenOutcomes | internal/gitignore/dir.go:19-34 | a file that does not open gives no patterns and its open error, a missing file the not-exist error; an opened file gives no error |
| GitignoreDir.IgnoreFileErrorDropped | internal/gitignore/dir.go:41-43 | inside the collection an ignore file that fails to open gives the same result whatever the failure, missing file included: its error is discarded |
| GitignoreDir.ListingErrorKeepsOwn | internal/gitignore/dir.go:46-50 | when the directory cannot be listed, the directory's own patterns are returned with the listing error |
| GitignoreDir.CollectEntriesExtends | internal/gitignore/dir.go:52-64 | the loop over entries only appends to the patterns collected so far |
| GitignoreDir.OwnPatternsFirst | internal/gitignore/dir.go:41-44 | the info/exclude patterns come first, then the .gitignore patterns, and the collection starts with both |
| GitignoreDir.CollectedDomains | internal/gitignore/dir.go:40-67 | for a root that Join extends by '/' and a name, every collected pattern's domain lies at or below the directory's own domain, through non-.git names |
| GitignoreDir.DotRootDomain | internal/gitignore/dir.go:55 | for the root ".", Join gives a sub-directory its bare name, so its patterns get the domain [name], not below ["."] |
| GitignoreDir.CollectedAncestorsFirst | internal/gitignore/dir.go:37-39 | for a root that Join extends by '/' and a name, no pattern of a directory follows a pattern of a sub-directory of it (ascending priority) |
| GitignoreDir.ListingOrder | internal/gitignore/dir.go:40-67 | without error the result is the directory's own patterns followed by each sub-directory's, in listing order |
| GitignoreDir.CollectEntriesInOrder | internal/gitignore/dir.go:52-64 | without error the loop appends each sub-directory's patterns in listing order |
| GitignoreDir.SubdirErrorStops | internal/gitignore/dir.go:55-58 | a sub-directory error stops the loop and returns the patterns collected so far with that error |
| GitignoreDir.GitDirNeverRead | internal/gitignore/dir.go:53 | replacing any entry named .git by another entry named .git, or a non-directory entry by another non-directory, does not change the result |
| PrettierConfig.ToStrings | internal/runner/prettierconfig.go:43-51 | a string gives the one-element list, a list of strings gives itself, any other value gives the empty list |
| PrettierConfig.MatchAny | internal/runner/prettierconfig.go:53-66 | the result is true exactly when some pattern matches its target, the base name for a slash-free pattern and the path otherwise |
| PrettierConfig.MergePrettierConfig | internal/runner/prettierconfig.go:11-41 | the merged map is the old map updated with the top-level options and then with the applying overrides in order |
| PrettierConfig.CopyTopLevel | internal/runner/prettierconfig.go:12-21 | every top-level option except a list-of-tables overrides value is copied, and that list is returned |
| PrettierConfig.ApplyOverridesInPlace | internal/runner/prettierconfig.go:27-40 | the overrides are applied one after the other in list order |
| PrettierConfig.TopLevelCopied | internal/runner/prettierconfig.go:13-21 | every user key but a list-of-tables overrides is copied unchanged; an overrides value of another type is copied like any key |
| PrettierConfig.NoOverridesCopiesUser | internal/runner/prettierconfig.go:23-25 | with no overrides list the result is the old map updated with the user configuration, which is the user configuration from an empty map |
| PrettierConfig.ExcludedOverrideSkipped | internal/runner/prettierconfig.go:31-33 | an override whose excludeFiles matches changes nothing, whatever its files say |
| PrettierConfig.NonTableOptionsIgnored | internal/runner/prettierconfig.go:36-38 | an override whose options is not a map changes nothing |
| PrettierConfig.MistypedFilesNeverMatch | internal/runner/prettierconfig.go:43-51 | files that is neither a string nor a list of strings matches nothing, so the override never applies |
| PrettierConfig.SlashFreePatternSeesBaseName | internal/runner/prettierconfig.go:56-59 | a pattern without '/' is matched against the last path element |
| PrettierConfig.ApplyOverrideKey | internal/runner/prettierconfig.go:27-40 | one applying override that sets a key gives it the override's value; otherwise the key keeps its presence and value |
| PrettierConfig.LastApplyingOverrideWins | internal/runner/prettierconfig.go:27-40 | a key set by an applying override keeps the value of the last applying override that sets it |
| PrettierConfig.UnsetKeyUntouched | internal/runner/prettierconfig.go:27-40 | a key no applying override sets keeps its earlier presence and value |
| PrettierConfigCases.NoOverridesCase | internal/runner/prettierconfig_test.go:48-53 | a configuration without overrides merges to itself |
| PrettierConfigCases.NormalMatchCase | internal/runner/prettierconfig_test.go:54-62 | bear.js takes tabWidth 4 from the *.js override |
| PrettierConfigCases.BasenameMatchCase | internal/runner/prettierconfig_test.go:63-71 | animals/bear.js matches *.js through its base name |
| PrettierConfigCases.NoMatchCase | internal/runner/prettierconfig_test.go:72-80 | bear.jsx matches no override and keeps the top-level options |
| PrettierConfigCases.MultipleMatchesCase | internal/runner/prettierconfig_test.go:81-89 | cat.js takes options from both matching overrides |
| PrettierConfigCases.ExcludeCase | internal/runner/prettierconfig_test.go:90-98 | dog.js is excluded from the *.js override |
| PrettierConfigCases.GlobMatchCase | internal/runner/prettierconfig_test.go:99-107 | animals/testdata/bear.js takes tabWidth 6 from the testdata override, applied last |
| PrettierConfigCases.GlobMatchExcludeCase | internal/runner/prettierconfig_test.go:108-116 | animals/testdata/cat.js is excluded from the testdata override |
| PrettierConfigCases.GlobMatchExclude2Case | internal/runner/prettierconfig_test.go:117-125 | animals/testdata/mouse.js is excluded from the testdata override |
| PrettierConfigCases.MergedIsThreeSteps | internal/runner/prettierconfig_test.go:10-40 | the test configuration merges as its top-level options followed by its three overrides in order |
| EditorConfig.FillEditorConfig | internal/runner/editorconfig.go:12-53 | the option map becomes the five derivation steps applied to the old map, in order |
| EditorConfig.SetUseTabs | internal/runner/editorconfig.go:13-19 | the useTabs step |
| EditorConfig.SetTabWidth | internal/runner/editorconfig.go:21-30 | the tabWidth step, reading back the useTabs now in the map |
| EditorConfig.SetPrintWidth | internal/runner/editorconfig.go:32-38 | the printWidth step |
| EditorConfig.SetSingleQuote | internal/runner/editorconfig.go:40-47 | the singleQuote step |
| EditorConfig.SetEndOfLine | internal/runner/editorconfig.go:49-52 | the endOfLine step |
| EditorConfig.StepsFrame | internal/runner/editorconfig.go:12-53 | each step writes at most its own key |
| EditorConfig.UseTabsRule | internal/runner/editorconfig.go:13-19 | indent_size tab forces useTabs true; otherwise a non-empty indent_style sets it to whether the style is tab; otherwise it is untouched |
| EditorConfig.TabWidthRule | internal/runner/editorconfig.go:21-30 | tabWidth is tab_width when tabs are on and it is positive, else a numeric indent_size under style space, else tab_width when present, else untouched |
| EditorConfig.PrintWidthRule | internal/runner/editorconfig.go:32-38 | max_line_length off gives the infinity marker, a number gives itself, unset, empty or non-numeric values leave printWidth untouched |
| EditorConfig.SingleQuoteRule | internal/runner/editorconfig.go:40-47 | quote_type single gives true, double gives false, anything else leaves singleQuote untouched |
| EditorConfig.EndOfLineRule | internal/runner/editorconfig.go:49-52 | endOfLine is copied exactly for cr, crlf and lf |
| EditorConfig.OnlyOptionKeysWritten | internal/runner/editorconfig.go:12-53 | only the five option keys are written; every other entry is unchanged |
| EditorConfig.UnsetPropertiesIgnored | internal/runner/editorconfig.go:32-57 | a property counts as set exactly when it is neither empty nor "unset"; an unset max_line_length or quote_type leaves printWidth or singleQuote as it was |
| EditorConfig.EmptyDefinitionUnchanged | internal/runner/editorconfig.go:12-53 | a definition with no properties leaves the map unchanged |
| EditorConfig.FillTableIndentTab | internal/runner/editorconfig_test.go:18-31 | indent_style tab with widths 2 and 8 gives useTabs, tabWidth 8 and printWidth 100 |
| EditorConfig.FillTableIndentSpace | internal/runner/editorconfig_test.go:32-45 | indent_style space with indent_size 2 gives tabWidth 2 |
| EditorConfig.FillTableIndentSpaceWide | internal/runner/editorconfig_test.go:46-59 | indent_style space with indent_size 8 gives tabWidth 8 |
| EditorConfig.FillTableIndentSpaceUnset | internal/runner/editorconfig_test.go:144-155 | max_line_length unset leaves printWidth absent |
| EditorConfig.FillTableIndentSizeTab | internal/runner/editorconfig_test.go:60-89 | indent_size tab turns tabs on and tabWidth follows tab_width |
| EditorConfig.FillTableQuotes | internal/runner/editorconfig_test.go:90-109 | the quote_type and max_line_length off cases |
| EditorConfig.FillTableEndOfLine | internal/runner/editorconfig_test.go:110-159 | cr, crlf and lf are copied, another value and an empty definition give nothing |
| Runner.FindConfigFile | internal/runner/runner.go:291-309 | the result is the upward lookup: empty when Abs fails, otherwise the first directory from cwd upward holding the name |
| Runner.LookupNotFound | internal/runner/runner.go:297-308 | when no directory from cwd up to the root holds the name, the lookup gives "" |
| Runner.LookupFindsNearest | internal/runner/runner.go:297-300 | a found file lies in the nearest ancestor, cwd itself included, that holds the name |
| Runner.NearestHolderOfParent | internal/runner/runner.go:302-307 | moving up from a directory without the file keeps the nearest holder |
| Runner.SelectConfig | internal/runner/runner.go:100-120 | the chosen configuration, or error, is the configuration-selection function of the arguments |
| Runner.FirstFoundIsFirst | internal/runner/runner.go:110-118 | the first name found anywhere upward is the one used |
| Runner.FirstFoundNone | internal/runner/runner.go:110-119 | no file is used exactly when no name is found |
| Runner.ExplicitConfigFirst | internal/runner/runner.go:101-106 | an explicit --config is loaded whatever else is set, and its load error is returned |
| Runner.NoConfigIsEmpty | internal/runner/runner.go:107-108 | --no-config without --config gives the empty configuration |
| Runner.NothingFoundIsEmpty | internal/runner/runner.go:109-119 | when no conventional name is found the configuration is empty |
| Runner.EarlierNameBeatsCloserFile | internal/runner/runner.go:110-119 | a .prettierrc far up beats a .prettierrc.json in cwd itself |
| GoStrings.TrimSpace | internal/gitignore/dir.go:26 | the result neither starts nor ends with white space |
| GoStrings.Split | internal/gitignore/dir.go:27 | there is always at least one piece |
| GoStrings.SplitJoin | internal/gitignore/dir.go:27 | the pieces of strings.Split contain no separator and joining them gives the input back |
| GoStrings.SplitChild | internal/gitignore/dir.go:55 | splitting parent + "/" + name, for a name without a separator, gives the parent's pieces followed by the name |
| GoStrings.TrimSpaceEmpty | internal/gitignore/dir.go:26 | TrimSpace leaves nothing exactly when every character is white space |
| GoStrings.Base | internal/runner/prettierconfig.go:58 | the base is never empty, and is "/" or holds no separator |
| GoStrings.BaseOfChild | internal/runner/prettierconfig.go:58 | the base of dir/name is name |
| GoStrings.Atoi | internal/runner/editorconfig.go:25 | a result is a 64-bit int and comes from text starting with a digit or a sign |
| GoStrings.DigitsBelow | internal/runner/editorconfig.go:25 | n decimal digits are worth less than 10^n |
| GoStrings.AtoiDecimal | internal/runner/editorconfig.go:25 | up to 18 digits, bare or after + or -, read as their signed decimal value; "", "+" and "-" are errors |

## Left out

- The WebAssembly runtime, the pipe and JSON protocol with it, the goroutines
  of `Run` and `format`, `NewRunner` and the compilation cache. These are I/O
  and concurrency.
- `loadConfigFile` parses YAML, TOML and JSON with foreign libraries. The model
  takes it as a `Loader` parameter.
- The lookup of `.editorconfig` definitions in `Run` (internal/runner/runner.go:87-98)
  is the EditorConfig library's work. `Definition` is taken as an input record,
  already parsed and normalised.
- The gitignore matcher (`gitignore.New`, `Ignore`, `Absolute`) and
  `doublestar.Match`/`GlobWalk` are external libraries. They are uninterpreted
  functions of the model. A matcher is known by the ignore text and base it was
  built from.
- How doublestar's GlobWalk reacts to SkipDir is not visible. The model gives
  it the same rule as `filepath.Walk`: SkipDir from a directory prunes it, and
  SkipDir from a file skips that file's remaining siblings.
- `ParsePattern` is not part of this model. A gitignore pattern is the line it
  came from together with its domain.
- `os.Lstat`, `os.Open`, `os.ReadDir`, `filepath.Abs`, `filepath.Join` and the
  process working directory are inputs. In the configuration lookup,
  directories are sequences of path elements, so `filepath.Dir` and the
  root's fixed point are exact. In the ignore-file collection, a child path is
  `filepath.Join` of the parent and the name for a root path that is "" or
  that `filepath.Clean` leaves unchanged: "" and "." give the name alone, "/"
  gives "/name", any other path gets '/' and the name. How Join cleans any
  other root, such as "a/./b" or "a//b", is not modelled.
- Scanner errors and lines too long for `bufio.Scanner` are not modelled. An
  opened file yields all its lines.
- ExpandPathsProps.ExpansionWellFormed and ExpandPathsProps.DispatchWellFormed
  take three facts about the Go library as requires: `Lstat("")` fails;
  `filepath.Join(a, b)` is non-empty whenever `a` is (Join returns ""
  only when every element is empty); and GlobWalk reports no empty
  path. Without them an output could carry an empty path. The code does not
  check for one, so the lemma cannot be proved for an arbitrary environment.
- GitignoreDir.CollectedDomains and GitignoreDir.CollectedAncestorsFirst are
  proved only for a root path other than "", "." and "/" that does not end in a
  separator. For those roots, Join does not put the root in front of a
  sub-directory's path. With the root ".", a sub-directory a gets the domain
  ["a"], which is not below the root's domain ["."]. See
  `GitignoreDir.DotRootDomain`.
- ExpandPaths.ExpandPatterns requires that an empty pattern is one `Lstat`
  finds. When `Lstat` fails, the Go code indexes `pattern[0]`, which panics on
  an empty pattern. The panic is not modelled.
- `math.Inf(1)` for `max_line_length = off` is the `Infinity` value tag, not a
  float.
- The debug logging through `slog` and the deferred `Close` calls.
- The order of entries within a directory is the order of the model's tree and
  listings. Lexical ordering by the library is taken as given.
