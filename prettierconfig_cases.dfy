/**
 * The merge table of prettierconfig_test.go: a base configuration and three
 * overrides, checked file by file against a glob matcher that agrees with
 * doublestar on the patterns and names involved.
 */
module PrettierConfigCases {
  import opened Config
  import opened GoStrings
  import opened PrettierConfig

  const BaseCfg: map<string, Value> := map["tabWidth" := Int(5), "printWidth" := Int(99)]

  const JsExceptDog: map<string, Value> :=
    map["files" := Str("*.js"), "excludeFiles" := Str("dog.js"), "options" := Table(map["tabWidth" := Int(4)])]
  const CatOnly: map<string, Value> :=
    map["files" := Strings(["cat.js"]), "options" := Table(map["printWidth" := Int(100)])]
  const TestdataJs: map<string, Value> :=
    map["files" := Strings(["**/testdata/*.js"]), "excludeFiles" := Strings(["cat.js", "mouse.js"]),
        "options" := Table(map["tabWidth" := Int(6)])]

  const OverridesCfg: map<string, Value> := BaseCfg["overrides" := Tables([JsExceptDog, CatOnly, TestdataJs])]

  predicate EndsWithJs(t: string) {
    |t| >= 3 && t[|t| - 3..] == ".js"
  }

  // The testdata pattern of the table: a .js file directly inside a directory named testdata, at any depth.
  predicate InTestdata(t: string) {
    var parts := Split(t, '/');
    |parts| >= 2 && parts[|parts| - 2] == "testdata" && EndsWithJs(parts[|parts| - 1])
  }

  /** doublestar.Match restricted to the patterns of the table. */
  function TableGlob(p: string, t: string): bool {
    if p == "*.js" then '/' !in t && EndsWithJs(t)
    else if p == "**/testdata/*.js" then InTestdata(t)
    else p == t
  }

  lemma TopLevelOfCfg()
    ensures map[] + TopLevel(OverridesCfg) == BaseCfg
  {
    assert "overrides" != "tabWidth" && "overrides" != "printWidth";
    assert OverridesCfg.Keys == {"tabWidth", "printWidth", "overrides"};
    assert TopLevel(OverridesCfg).Keys == BaseCfg.Keys;
  }

  lemma OverridesOfCfg()
    ensures OverridesOf(OverridesCfg) == [JsExceptDog, CatOnly, TestdataJs]
  {
  }

  // The three overrides applied in order to the copied base options.
  lemma MergedIsThreeSteps(path: string)
    ensures Merged(map[], OverridesCfg, path, TableGlob)
      == ApplyOverride(ApplyOverride(ApplyOverride(BaseCfg, JsExceptDog, path, TableGlob), CatOnly, path, TableGlob), TestdataJs, path, TableGlob)
  {
    TopLevelOfCfg();
    OverridesOfCfg();
    var os := [JsExceptDog, CatOnly, TestdataJs];
    var c0 := ApplyOverrides(BaseCfg, os[..0], path, TableGlob);
    assert c0 == BaseCfg;
    assert os[..1][..0] == os[..0];
    var c1 := ApplyOverrides(BaseCfg, os[..1], path, TableGlob);
    assert c1 == ApplyOverride(c0, JsExceptDog, path, TableGlob);
    assert os[..2][..1] == os[..1];
    var c2 := ApplyOverrides(BaseCfg, os[..2], path, TableGlob);
    assert c2 == ApplyOverride(c1, CatOnly, path, TableGlob);
    assert os[..2] == os[..|os| - 1];
    assert ApplyOverrides(BaseCfg, os, path, TableGlob) == ApplyOverride(c2, TestdataJs, path, TableGlob);
  }

  lemma MatchesOne(p: string, path: string, glob: GlobMatch)
    ensures MatchesAny([p], path, glob) == glob(p, MatchTarget(p, path))
  {
    if glob(p, MatchTarget(p, path)) {
      assert [p][0] == p;
    }
  }

  lemma MatchesTwo(p: string, q: string, path: string, glob: GlobMatch)
    ensures MatchesAny([p, q], path, glob) == (glob(p, MatchTarget(p, path)) || glob(q, MatchTarget(q, path)))
  {
    if glob(p, MatchTarget(p, path)) {
      assert [p, q][0] == p;
    }
    if glob(q, MatchTarget(q, path)) {
      assert [p, q][1] == q;
    }
  }

  // The patterns of the table: which contain '/', and that the literal names differ from the two globs.
  lemma PatternSlashes()
    ensures '/' !in "cat.js" && '/' !in "dog.js" && '/' !in "mouse.js" && '/' !in "*.js"
    ensures '/' in "**/testdata/*.js"
  {
    var c, d, m, j, t := "cat.js", "dog.js", "mouse.js", "*.js", "**/testdata/*.js";
    assert c[0] != '/' && c[1] != '/' && c[2] != '/' && c[3] != '/' && c[4] != '/' && c[5] != '/';
    assert d[0] != '/' && d[1] != '/' && d[2] != '/' && d[3] != '/' && d[4] != '/' && d[5] != '/';
    assert m[0] != '/' && m[1] != '/' && m[2] != '/' && m[3] != '/' && m[4] != '/' && m[5] != '/' && m[6] != '/' && m[7] != '/';
    assert j[0] != '/' && j[1] != '/' && j[2] != '/' && j[3] != '/';
    assert t[2] == '/';
  }

  lemma LiteralPatterns()
    ensures forall t :: TableGlob("cat.js", t) == (t == "cat.js")
    ensures forall t :: TableGlob("dog.js", t) == (t == "dog.js")
    ensures forall t :: TableGlob("mouse.js", t) == (t == "mouse.js")
  {
    assert "cat.js"[0] != "*.js"[0] && "cat.js"[0] != "**/testdata/*.js"[0];
    assert "dog.js"[0] != "*.js"[0] && "dog.js"[0] != "**/testdata/*.js"[0];
    assert "mouse.js"[0] != "*.js"[0] && "mouse.js"[0] != "**/testdata/*.js"[0];
  }

  lemma OverrideFields()
    ensures ToStrings(Get(JsExceptDog, "excludeFiles")) == ["dog.js"] && ToStrings(Get(JsExceptDog, "files")) == ["*.js"]
    ensures ToStrings(Get(CatOnly, "excludeFiles")) == [] && ToStrings(Get(CatOnly, "files")) == ["cat.js"]
    ensures ToStrings(Get(TestdataJs, "excludeFiles")) == ["cat.js", "mouse.js"]
    ensures ToStrings(Get(TestdataJs, "files")) == ["**/testdata/*.js"]
    ensures Get(JsExceptDog, "options") == Table(map["tabWidth" := Int(4)])
    ensures Get(CatOnly, "options") == Table(map["printWidth" := Int(100)])
    ensures Get(TestdataJs, "options") == Table(map["tabWidth" := Int(6)])
  {
  }

  // How each override decides, given the base name of the file (the slash-free patterns see only it).
  lemma JsExceptDogDecides(path: string, base: string)
    requires Base(path) == base
    ensures Excluded(JsExceptDog, path, TableGlob) == (base == "dog.js")
    ensures Included(JsExceptDog, path, TableGlob) == EndsWithJs(base)
    ensures Get(JsExceptDog, "options") == Table(map["tabWidth" := Int(4)])
  {
    OverrideFields();
    PatternSlashes();
    LiteralPatterns();
    MatchesOne("dog.js", path, TableGlob);
    MatchesOne("*.js", path, TableGlob);
    assert '/' !in base ==> TableGlob("*.js", base) == EndsWithJs(base);
    if base == "/" {
      assert !EndsWithJs(base);
    }
  }

  lemma CatOnlyDecides(path: string, base: string)
    requires Base(path) == base
    ensures !Excluded(CatOnly, path, TableGlob)
    ensures Included(CatOnly, path, TableGlob) == (base == "cat.js")
    ensures Get(CatOnly, "options") == Table(map["printWidth" := Int(100)])
  {
    OverrideFields();
    PatternSlashes();
    LiteralPatterns();
    MatchesOne("cat.js", path, TableGlob);
  }

  lemma TestdataJsDecides(path: string, base: string)
    requires Base(path) == base
    ensures Excluded(TestdataJs, path, TableGlob) == (base == "cat.js" || base == "mouse.js")
    ensures Included(TestdataJs, path, TableGlob) == InTestdata(path)
    ensures Get(TestdataJs, "options") == Table(map["tabWidth" := Int(6)])
  {
    OverrideFields();
    PatternSlashes();
    LiteralPatterns();
    MatchesOne("**/testdata/*.js", path, TableGlob);
    MatchesTwo("cat.js", "mouse.js", path, TableGlob);
  }

  // A file directly under dir/testdata, and a file at the top.
  lemma TestdataPaths(dir: string, name: string)
    requires '/' !in dir && '/' !in name
    ensures InTestdata(dir + "/testdata/" + name) == EndsWithJs(name)
    ensures !InTestdata(name)
  {
    assert dir + "/testdata/" + name == (dir + "/" + "testdata") + "/" + name;
    SplitChild(dir + "/" + "testdata", name);
    SplitChild(dir, "testdata");
    SplitNoSeparator(dir, '/');
    SplitNoSeparator(name, '/');
  }

  // The effect of each override on any option map, by the file's base name.
  lemma JsExceptDogStep(cfg: map<string, Value>, path: string, base: string)
    requires Base(path) == base
    ensures ApplyOverride(cfg, JsExceptDog, path, TableGlob)
      == if base != "dog.js" && EndsWithJs(base) then cfg + map["tabWidth" := Int(4)] else cfg
  {
    JsExceptDogDecides(path, base);
  }

  lemma CatOnlyStep(cfg: map<string, Value>, path: string, base: string)
    requires Base(path) == base
    ensures ApplyOverride(cfg, CatOnly, path, TableGlob)
      == if base == "cat.js" then cfg + map["printWidth" := Int(100)] else cfg
  {
    CatOnlyDecides(path, base);
  }

  lemma TestdataJsStep(cfg: map<string, Value>, path: string, base: string)
    requires Base(path) == base
    ensures ApplyOverride(cfg, TestdataJs, path, TableGlob)
      == if base != "cat.js" && base != "mouse.js" && InTestdata(path) then cfg + map["tabWidth" := Int(6)] else cfg
  {
    TestdataJsDecides(path, base);
  }

  lemma NoOverridesCase()
    ensures Merged(map[], BaseCfg, "bear.js", TableGlob) == BaseCfg
  {
    NoOverridesCopiesUser(map[], BaseCfg, "bear.js", TableGlob);
  }

  // The option maps the table expects, as the overrides build them.
  lemma ExpectedMaps()
    ensures BaseCfg + map["tabWidth" := Int(4)] == map["tabWidth" := Int(4), "printWidth" := Int(99)]
    ensures BaseCfg + map["tabWidth" := Int(4)] + map["printWidth" := Int(100)] == map["tabWidth" := Int(4), "printWidth" := Int(100)]
    ensures BaseCfg + map["tabWidth" := Int(4)] + map["tabWidth" := Int(6)] == map["tabWidth" := Int(6), "printWidth" := Int(99)]
  {
  }

  /** "normal match": bear.js takes the first override only. */
  lemma NormalMatchCase()
    ensures Merged(map[], OverridesCfg, "bear.js", TableGlob) == map["tabWidth" := Int(4), "printWidth" := Int(99)]
  {
    var path := "bear.js";
    BaseOfChild("", path);
    TestdataPaths("", path);
    MergedIsThreeSteps(path);
    assert EndsWithJs(path);
    var c1 := BaseCfg + map["tabWidth" := Int(4)];
    JsExceptDogStep(BaseCfg, path, path);
    assert ApplyOverride(BaseCfg, JsExceptDog, path, TableGlob) == c1;
    CatOnlyStep(c1, path, path);
    assert ApplyOverride(c1, CatOnly, path, TableGlob) == c1;
    TestdataJsStep(c1, path, path);
    assert ApplyOverride(c1, TestdataJs, path, TableGlob) == c1;
    ExpectedMaps();
  }

  /** "no match": bear.jsx takes no override. */
  lemma NoMatchCase()
    ensures Merged(map[], OverridesCfg, "bear.jsx", TableGlob) == BaseCfg
  {
    var path := "bear.jsx";
    BaseOfChild("", path);
    TestdataPaths("", path);
    MergedIsThreeSteps(path);
    assert path[|path| - 3..] != ".js";
    JsExceptDogStep(BaseCfg, path, path);
    CatOnlyStep(BaseCfg, path, path);
    TestdataJsStep(BaseCfg, path, path);
  }

  /** "multiple matches": cat.js takes the first two overrides. */
  lemma MultipleMatchesCase()
    ensures Merged(map[], OverridesCfg, "cat.js", TableGlob) == map["tabWidth" := Int(4), "printWidth" := Int(100)]
  {
    var path := "cat.js";
    BaseOfChild("", path);
    TestdataPaths("", path);
    MergedIsThreeSteps(path);
    assert EndsWithJs(path);
    JsExceptDogStep(BaseCfg, path, path);
    var c1 := BaseCfg + map["tabWidth" := Int(4)];
    CatOnlyStep(c1, path, path);
    var c2 := c1 + map["printWidth" := Int(100)];
    TestdataJsStep(c2, path, path);
    ExpectedMaps();
  }

  /** "exclude": dog.js is excluded from the first override and takes none. */
  lemma ExcludeCase()
    ensures Merged(map[], OverridesCfg, "dog.js", TableGlob) == BaseCfg
  {
    var path := "dog.js";
    BaseOfChild("", path);
    TestdataPaths("", path);
    MergedIsThreeSteps(path);
    JsExceptDogStep(BaseCfg, path, path);
    CatOnlyStep(BaseCfg, path, path);
    TestdataJsStep(BaseCfg, path, path);
  }

  lemma BearIsNoOtherName()
    ensures "bear.js" != "dog.js" && "bear.js" != "cat.js" && "bear.js" != "mouse.js" && EndsWithJs("bear.js")
  {
    assert "bear.js"[0] == 'b';
  }

  lemma AnimalsBearSpelled()
    ensures "animals" + "/" + "bear.js" == "animals/bear.js"
    ensures "animals/testdata" + "/" + "bear.js" == "animals/testdata/bear.js"
    ensures "animals/testdata/" + "bear.js" == "animals/testdata/bear.js"
  {
  }

  lemma AnimalsBearSplit()
    ensures Base("animals" + "/" + "bear.js") == "bear.js"
    ensures Split("animals" + "/" + "bear.js", '/') == ["animals", "bear.js"]
  {
    NoSlashInNames();
    BaseOfChild("animals", "bear.js");
    SplitChild("animals", "bear.js");
    SplitNoSeparator("animals", '/');
  }

  lemma NoSlashInNames()
    ensures Separator !in "bear.js" && Separator !in "animals"
  {
    var b, a := "bear.js", "animals";
    assert b[0] != '/' && b[1] != '/' && b[2] != '/' && b[3] != '/' && b[4] != '/' && b[5] != '/' && b[6] != '/';
    assert a[0] != '/' && a[1] != '/' && a[2] != '/' && a[3] != '/' && a[4] != '/' && a[5] != '/' && a[6] != '/';
  }

  lemma AnimalsBearPath()
    ensures Base("animals/bear.js") == "bear.js"
    ensures !InTestdata("animals/bear.js")
  {
    AnimalsBearSpelled();
    AnimalsBearSplit();
  }

  lemma TestdataBearSplit()
    ensures Base("animals/testdata" + "/" + "bear.js") == "bear.js"
    ensures InTestdata("animals/testdata/" + "bear.js")
  {
    NoSlashInNames();
    BaseOfChild("animals/testdata", "bear.js");
    TestdataBearInside();
  }

  lemma TestdataBearInside()
    ensures InTestdata("animals/testdata/" + "bear.js")
  {
    NoSlashInNames();
    TestdataPaths("animals", "bear.js");
    assert "animals" + "/testdata/" + "bear.js" == "animals/testdata/" + "bear.js";
    assert EndsWithJs("bear.js");
  }

  lemma TestdataBearPath()
    ensures Base("animals/testdata/bear.js") == "bear.js"
    ensures InTestdata("animals/testdata/bear.js")
  {
    AnimalsBearSpelled();
    TestdataBearSplit();
  }

  /** "basename match": a slash-free pattern matches animals/bear.js by its base name. */
  lemma BasenameMatchCase()
    ensures Merged(map[], OverridesCfg, "animals/bear.js", TableGlob) == map["tabWidth" := Int(4), "printWidth" := Int(99)]
  {
    var path := "animals/bear.js";
    AnimalsBearPath();
    BearIsNoOtherName();
    MergedIsThreeSteps(path);
    assert EndsWithJs("bear.js");
    var c1 := BaseCfg + map["tabWidth" := Int(4)];
    JsExceptDogStep(BaseCfg, path, "bear.js");
    assert ApplyOverride(BaseCfg, JsExceptDog, path, TableGlob) == c1;
    CatOnlyStep(c1, path, "bear.js");
    assert ApplyOverride(c1, CatOnly, path, TableGlob) == c1;
    TestdataJsStep(c1, path, "bear.js");
    assert ApplyOverride(c1, TestdataJs, path, TableGlob) == c1;
    ExpectedMaps();
  }

  /** "glob match": animals/testdata/bear.js takes the first and the third override. */
  lemma GlobMatchCase()
    ensures Merged(map[], OverridesCfg, "animals/testdata/bear.js", TableGlob) == map["tabWidth" := Int(6), "printWidth" := Int(99)]
  {
    var path := "animals/testdata/bear.js";
    TestdataBearPath();
    BearIsNoOtherName();
    MergedIsThreeSteps(path);
    assert EndsWithJs("bear.js");
    var c1 := BaseCfg + map["tabWidth" := Int(4)];
    JsExceptDogStep(BaseCfg, path, "bear.js");
    assert ApplyOverride(BaseCfg, JsExceptDog, path, TableGlob) == c1;
    CatOnlyStep(c1, path, "bear.js");
    assert ApplyOverride(c1, CatOnly, path, TableGlob) == c1;
    TestdataJsStep(c1, path, "bear.js");
    assert ApplyOverride(c1, TestdataJs, path, TableGlob) == c1 + map["tabWidth" := Int(6)];
    ExpectedMaps();
  }

  lemma CatBase()
    ensures Base("animals/testdata/cat.js") == "cat.js" && EndsWithJs("cat.js")
  {
    var c := "cat.js";
    assert c[0] != '/' && c[1] != '/' && c[2] != '/' && c[3] != '/' && c[4] != '/' && c[5] != '/';
    assert "animals/testdata" + "/" + "cat.js" == "animals/testdata/cat.js";
    BaseOfChild("animals/testdata", "cat.js");
  }

  lemma MouseBase()
    ensures Base("animals/testdata/mouse.js") == "mouse.js" && EndsWithJs("mouse.js")
  {
    var m := "mouse.js";
    assert m[0] != '/' && m[1] != '/' && m[2] != '/' && m[3] != '/' && m[4] != '/' && m[5] != '/' && m[6] != '/' && m[7] != '/';
    assert "animals/testdata" + "/" + "mouse.js" == "animals/testdata/mouse.js";
    BaseOfChild("animals/testdata", "mouse.js");
  }

  /** "glob match exclude": animals/testdata/cat.js is excluded from the third override. */
  lemma GlobMatchExcludeCase()
    ensures Merged(map[], OverridesCfg, "animals/testdata/cat.js", TableGlob) == map["tabWidth" := Int(4), "printWidth" := Int(100)]
  {
    var name := "cat.js";
    var path := "animals/testdata/cat.js";
    CatBase();
    MergedIsThreeSteps(path);
    var c1 := BaseCfg + map["tabWidth" := Int(4)];
    JsExceptDogStep(BaseCfg, path, name);
    assert ApplyOverride(BaseCfg, JsExceptDog, path, TableGlob) == c1;
    var c2 := c1 + map["printWidth" := Int(100)];
    CatOnlyStep(c1, path, name);
    assert ApplyOverride(c1, CatOnly, path, TableGlob) == c2;
    TestdataJsStep(c2, path, name);
    assert ApplyOverride(c2, TestdataJs, path, TableGlob) == c2;
    ExpectedMaps();
  }

  /** "glob match exclude 2": animals/testdata/mouse.js is excluded from the third override. */
  lemma GlobMatchExclude2Case()
    ensures Merged(map[], OverridesCfg, "animals/testdata/mouse.js", TableGlob) == map["tabWidth" := Int(4), "printWidth" := Int(99)]
  {
    var name := "mouse.js";
    var path := "animals/testdata/mouse.js";
    MouseBase();
    MergedIsThreeSteps(path);
    var c1 := BaseCfg + map["tabWidth" := Int(4)];
    JsExceptDogStep(BaseCfg, path, name);
    assert ApplyOverride(BaseCfg, JsExceptDog, path, TableGlob) == c1;
    CatOnlyStep(c1, path, name);
    assert ApplyOverride(c1, CatOnly, path, TableGlob) == c1;
    TestdataJsStep(c1, path, name);
    assert ApplyOverride(c1, TestdataJs, path, TableGlob) == c1;
    ExpectedMaps();
  }
}
