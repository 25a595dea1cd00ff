/**
 * fillEditorConfig: turns the EditorConfig properties that apply to a file
 * into Prettier options (useTabs, tabWidth, printWidth, singleQuote,
 * endOfLine), writing them into the caller's option map.
 */
module EditorConfig {
  import opened Wrappers
  import opened GoStrings
  import opened Config

  /** editorconfig.UnsetValue */
  const UnsetValue: string := "unset"

  /**
   * The fields of an editorconfig.Definition that fillEditorConfig reads, as the
   * EditorConfig library hands them over (parsed and normalised). Raw holds every
   * property by name; a property that is absent reads as "".
   */
  datatype Definition = Definition(
    indentStyle: string,
    indentSize: string,
    tabWidth: int,
    endOfLine: string,
    raw: map<string, string>)

  function RawGet(def: Definition, key: string): string {
    if key in def.raw then def.raw[key] else ""
  }

  /** isSet: a property value counts unless it is empty or the explicit "unset". */
  predicate IsSet(val: string) {
    val != "" && val != UnsetValue
  }

  /** The only keys fillEditorConfig ever writes. */
  const WrittenKeys: set<string> := {"useTabs", "tabWidth", "printWidth", "singleQuote", "endOfLine"}

  // Lines 13-19: indent_style, then indent_size = tab.
  function WithUseTabs(def: Definition, m: map<string, Value>): map<string, Value> {
    var m1 := if def.indentStyle != "" then m["useTabs" := Bool(def.indentStyle == "tab")] else m;
    if def.indentSize == "tab" then m1["useTabs" := Bool(true)] else m1
  }

  // Lines 21-30: the first applicable source of tabWidth; m already has useTabs settled.
  function WithTabWidth(def: Definition, m: map<string, Value>): map<string, Value> {
    if Get(m, "useTabs") == Bool(true) && def.tabWidth > 0 then
      m["tabWidth" := Int(def.tabWidth)]
    else if def.indentStyle == "space" && def.indentSize != "" && def.indentSize != "tab" then
      match Atoi(def.indentSize)
      case Some(n) => m["tabWidth" := Int(n)]
      case None => m
    else if RawGet(def, "tab_width") != "" then
      m["tabWidth" := Int(def.tabWidth)]
    else
      m
  }

  // Lines 32-38: max_line_length.
  function WithPrintWidth(def: Definition, m: map<string, Value>): map<string, Value> {
    var maxLen := RawGet(def, "max_line_length");
    if !IsSet(maxLen) then m
    else if maxLen == "off" then m["printWidth" := Infinity]
    else match Atoi(maxLen)
      case Some(n) => m["printWidth" := Int(n)]
      case None => m
  }

  // Lines 40-47: quote_type.
  function WithSingleQuote(def: Definition, m: map<string, Value>): map<string, Value> {
    var quoteType := RawGet(def, "quote_type");
    if !IsSet(quoteType) then m
    else if quoteType == "single" then m["singleQuote" := Bool(true)]
    else if quoteType == "double" then m["singleQuote" := Bool(false)]
    else m
  }

  // Lines 49-52: end_of_line.
  function WithEndOfLine(def: Definition, m: map<string, Value>): map<string, Value> {
    if def.endOfLine == "cr" || def.endOfLine == "crlf" || def.endOfLine == "lf" then
      m["endOfLine" := Str(def.endOfLine)]
    else
      m
  }

  /** The option map after fillEditorConfig(def, m): the five steps one after the other. */
  function Filled(def: Definition, m: map<string, Value>): map<string, Value> {
    WithEndOfLine(def, WithSingleQuote(def, WithPrintWidth(def, WithTabWidth(def, WithUseTabs(def, m)))))
  }

  /** fillEditorConfig: writes the derived options into res in place, block by block. */
  method FillEditorConfig(def: Definition, res: Options)
    modifies res
    ensures res.entries == Filled(def, old(res.entries))
  {
    SetUseTabs(def, res);
    SetTabWidth(def, res);
    SetPrintWidth(def, res);
    SetSingleQuote(def, res);
    SetEndOfLine(def, res);
  }

  // Lines 13-19.
  method SetUseTabs(def: Definition, res: Options)
    modifies res
    ensures res.entries == WithUseTabs(def, old(res.entries))
  {
    if def.indentStyle != "" {
      res.entries := res.entries["useTabs" := Bool(def.indentStyle == "tab")];
    }
    if def.indentSize == "tab" {
      res.entries := res.entries["useTabs" := Bool(true)];
    }
  }

  // Lines 21-30: reads back the useTabs the previous step left in res.
  method SetTabWidth(def: Definition, res: Options)
    modifies res
    ensures res.entries == WithTabWidth(def, old(res.entries))
  {
    if Get(res.entries, "useTabs") == Bool(true) && def.tabWidth > 0 {
      res.entries := res.entries["tabWidth" := Int(def.tabWidth)];
    } else if def.indentStyle == "space" && def.indentSize != "" && def.indentSize != "tab" {
      var n := Atoi(def.indentSize);
      if n.Some? {
        res.entries := res.entries["tabWidth" := Int(n.value)];
      }
    } else if RawGet(def, "tab_width") != "" {
      res.entries := res.entries["tabWidth" := Int(def.tabWidth)];
    }
  }

  // Lines 32-38.
  method SetPrintWidth(def: Definition, res: Options)
    modifies res
    ensures res.entries == WithPrintWidth(def, old(res.entries))
  {
    var maxLenStr := RawGet(def, "max_line_length");
    if IsSet(maxLenStr) {
      if maxLenStr == "off" {
        res.entries := res.entries["printWidth" := Infinity];
      } else {
        var maxLen := Atoi(maxLenStr);
        if maxLen.Some? {
          res.entries := res.entries["printWidth" := Int(maxLen.value)];
        }
      }
    }
  }

  // Lines 40-47.
  method SetSingleQuote(def: Definition, res: Options)
    modifies res
    ensures res.entries == WithSingleQuote(def, old(res.entries))
  {
    var quoteType := RawGet(def, "quote_type");
    if IsSet(quoteType) {
      if quoteType == "single" {
        res.entries := res.entries["singleQuote" := Bool(true)];
      } else if quoteType == "double" {
        res.entries := res.entries["singleQuote" := Bool(false)];
      }
    }
  }

  // Lines 49-52.
  method SetEndOfLine(def: Definition, res: Options)
    modifies res
    ensures res.entries == WithEndOfLine(def, old(res.entries))
  {
    if def.endOfLine == "cr" || def.endOfLine == "crlf" || def.endOfLine == "lf" {
      res.entries := res.entries["endOfLine" := Str(def.endOfLine)];
    }
  }

  // Each step writes its own key and no other.
  lemma StepsFrame(def: Definition, m: map<string, Value>, k: string)
    ensures k != "useTabs" ==> Get(WithUseTabs(def, m), k) == Get(m, k)
    ensures k != "tabWidth" ==> Get(WithTabWidth(def, m), k) == Get(m, k)
    ensures k != "printWidth" ==> Get(WithPrintWidth(def, m), k) == Get(m, k)
    ensures k != "singleQuote" ==> Get(WithSingleQuote(def, m), k) == Get(m, k)
    ensures k != "endOfLine" ==> Get(WithEndOfLine(def, m), k) == Get(m, k)
  {
  }

  /** Each rule reads its key back from the step that writes it: the later steps leave it alone. */
  lemma StepsKeep(def: Definition, m: map<string, Value>)
    ensures var m1 := WithUseTabs(def, m); var m2 := WithTabWidth(def, m1);
      var m3 := WithPrintWidth(def, m2); var m4 := WithSingleQuote(def, m3);
      var r := Filled(def, m);
      Get(r, "useTabs") == Get(m1, "useTabs") && Get(r, "tabWidth") == Get(m2, "tabWidth")
      && Get(r, "printWidth") == Get(m3, "printWidth") && Get(r, "singleQuote") == Get(m4, "singleQuote")
      && Get(m1, "tabWidth") == Get(m, "tabWidth") && Get(m2, "printWidth") == Get(m, "printWidth")
      && Get(m3, "singleQuote") == Get(m, "singleQuote") && Get(m4, "endOfLine") == Get(m, "endOfLine")
  {
    var m1 := WithUseTabs(def, m);
    var m2 := WithTabWidth(def, m1);
    var m3 := WithPrintWidth(def, m2);
    var m4 := WithSingleQuote(def, m3);
    StepsFrame(def, m, "tabWidth");
    StepsFrame(def, m, "printWidth");
    StepsFrame(def, m, "singleQuote");
    StepsFrame(def, m, "endOfLine");
    StepsFrame(def, m1, "useTabs");
    StepsFrame(def, m1, "printWidth");
    StepsFrame(def, m1, "singleQuote");
    StepsFrame(def, m1, "endOfLine");
    StepsFrame(def, m2, "useTabs");
    StepsFrame(def, m2, "tabWidth");
    StepsFrame(def, m2, "singleQuote");
    StepsFrame(def, m2, "endOfLine");
    StepsFrame(def, m3, "useTabs");
    StepsFrame(def, m3, "tabWidth");
    StepsFrame(def, m3, "printWidth");
    StepsFrame(def, m3, "endOfLine");
    StepsFrame(def, m4, "useTabs");
    StepsFrame(def, m4, "tabWidth");
    StepsFrame(def, m4, "printWidth");
    StepsFrame(def, m4, "singleQuote");
  }

  /** useTabs: indent_size = tab forces true; otherwise a non-empty indent_style decides; otherwise untouched. */
  lemma UseTabsRule(def: Definition, m: map<string, Value>)
    ensures var r := Filled(def, m);
      if def.indentSize == "tab" then Get(r, "useTabs") == Bool(true)
      else if def.indentStyle != "" then Get(r, "useTabs") == Bool(def.indentStyle == "tab")
      else Get(r, "useTabs") == Get(m, "useTabs")
  {
    StepsKeep(def, m);
  }

  /**
   * tabWidth comes from the first applicable source: tab_width when tabs are on and it
   * is positive; else a numeric indent_size when the style is space; else tab_width when
   * the raw property is present; otherwise it is untouched.
   */
  lemma TabWidthRule(def: Definition, m: map<string, Value>)
    ensures var tabsOn := Get(WithUseTabs(def, m), "useTabs") == Bool(true);
      var r := Filled(def, m);
      if tabsOn && def.tabWidth > 0 then Get(r, "tabWidth") == Int(def.tabWidth)
      else if def.indentStyle == "space" && def.indentSize != "" && def.indentSize != "tab" then
        Get(r, "tabWidth") == (if Atoi(def.indentSize).Some? then Int(Atoi(def.indentSize).value) else Get(m, "tabWidth"))
      else if RawGet(def, "tab_width") != "" then Get(r, "tabWidth") == Int(def.tabWidth)
      else Get(r, "tabWidth") == Get(m, "tabWidth")
  {
    StepsKeep(def, m);
  }

  /** printWidth: "off" gives the infinity marker, a number gives itself, anything else leaves it as it was. */
  lemma PrintWidthRule(def: Definition, m: map<string, Value>)
    ensures var v := RawGet(def, "max_line_length"); var r := Filled(def, m);
      if v == "off" then Get(r, "printWidth") == Infinity
      else if IsSet(v) && Atoi(v).Some? then Get(r, "printWidth") == Int(Atoi(v).value)
      else Get(r, "printWidth") == Get(m, "printWidth")
  {
    StepsKeep(def, m);
  }

  /** singleQuote: set only by quote_type single (true) or double (false). */
  lemma SingleQuoteRule(def: Definition, m: map<string, Value>)
    ensures var q := RawGet(def, "quote_type"); var r := Filled(def, m);
      if q == "single" then Get(r, "singleQuote") == Bool(true)
      else if q == "double" then Get(r, "singleQuote") == Bool(false)
      else Get(r, "singleQuote") == Get(m, "singleQuote")
  {
    StepsKeep(def, m);
  }

  /** endOfLine: copied only for cr, crlf and lf. */
  lemma EndOfLineRule(def: Definition, m: map<string, Value>)
    ensures var r := Filled(def, m);
      if def.endOfLine in {"cr", "crlf", "lf"} then Get(r, "endOfLine") == Str(def.endOfLine)
      else Get(r, "endOfLine") == Get(m, "endOfLine")
  {
    StepsKeep(def, m);
  }

  /** Only the five option keys are ever written; every other entry of the map is left alone. */
  lemma OnlyOptionKeysWritten(def: Definition, m: map<string, Value>)
    ensures Filled(def, m).Keys <= m.Keys + WrittenKeys
    ensures forall k | k in m && k !in WrittenKeys :: k in Filled(def, m) && Filled(def, m)[k] == m[k]
  {
  }

  /**
   * isSet rejects exactly the empty value and "unset", and a max_line_length or
   * quote_type it rejects leaves printWidth or singleQuote as it was.
   */
  lemma UnsetPropertiesIgnored(def: Definition, m: map<string, Value>)
    ensures forall v :: IsSet(v) <==> v != "" && v != "unset"
    ensures !IsSet(RawGet(def, "max_line_length")) ==> Get(Filled(def, m), "printWidth") == Get(m, "printWidth")
    ensures !IsSet(RawGet(def, "quote_type")) ==> Get(Filled(def, m), "singleQuote") == Get(m, "singleQuote")
  {
    StepsKeep(def, m);
  }

  /** A definition with no properties leaves the map unchanged. */
  lemma EmptyDefinitionUnchanged(m: map<string, Value>)
    ensures Filled(Definition("", "", 0, "", map[]), m) == m
  {
  }

  // The cases of the editorconfig-to-prettier table, each on an empty option map, with the
  // Definition the EditorConfig library produces for the section's properties.

  lemma FillTableIndentTab()
    ensures Filled(Definition("tab", "2", 8, "", map["indent_style" := "tab", "tab_width" := "8", "indent_size" := "2", "max_line_length" := "100"]), map[])
      == map["useTabs" := Bool(true), "tabWidth" := Int(8), "printWidth" := Int(100)]
  {
    AtoiLiterals();
  }

  lemma FillTableIndentSpace()
    ensures Filled(Definition("space", "2", 8, "", map["indent_style" := "space", "tab_width" := "8", "indent_size" := "2", "max_line_length" := "100"]), map[])
      == map["useTabs" := Bool(false), "tabWidth" := Int(2), "printWidth" := Int(100)]
  {
    AtoiLiterals();
  }

  lemma FillTableIndentSpaceWide()
    ensures Filled(Definition("space", "8", 8, "", map["indent_style" := "space", "tab_width" := "8", "indent_size" := "8", "max_line_length" := "100"]), map[])
      == map["useTabs" := Bool(false), "tabWidth" := Int(8), "printWidth" := Int(100)]
  {
    AtoiLiterals();
  }

  lemma FillTableIndentSpaceUnset()
    ensures Filled(Definition("space", "2", 0, "", map["indent_style" := "space", "indent_size" := "2", "max_line_length" := "unset"]), map[])
      == map["useTabs" := Bool(false), "tabWidth" := Int(2)]
  {
    AtoiLiterals();
  }

  lemma FillTableIndentSizeTab()
    ensures Filled(Definition("", "tab", 4, "", map["tab_width" := "4", "indent_size" := "tab"]), map[])
      == map["tabWidth" := Int(4), "useTabs" := Bool(true)]
    ensures Filled(Definition("", "tab", 0, "", map["indent_size" := "tab"]), map[])
      == map["useTabs" := Bool(true)]
    ensures Filled(Definition("", "0", 0, "", map["tab_width" := "0", "indent_size" := "0"]), map[])
      == map["tabWidth" := Int(0)]
  {
  }

  lemma FillTableQuotes()
    ensures Filled(Definition("", "", 0, "", map["quote_type" := "double"]), map[])
      == map["singleQuote" := Bool(false)]
    ensures Filled(Definition("", "", 0, "", map["quote_type" := "double", "max_line_length" := "off"]), map[])
      == map["printWidth" := Infinity, "singleQuote" := Bool(false)]
  {
  }

  lemma FillTableEndOfLine()
    ensures Filled(Definition("", "", 0, "cr", map["end_of_line" := "cr"]), map[]) == map["endOfLine" := Str("cr")]
    ensures Filled(Definition("", "", 0, "crlf", map["end_of_line" := "crlf"]), map[]) == map["endOfLine" := Str("crlf")]
    ensures Filled(Definition("", "", 0, "lf", map["end_of_line" := "lf"]), map[]) == map["endOfLine" := Str("lf")]
    ensures Filled(Definition("", "", 0, "123", map["end_of_line" := "123"]), map[]) == map[]
    ensures Filled(Definition("", "", 0, "", map[]), map[]) == map[]
  {
  }

  lemma AtoiLiterals()
    ensures Atoi("2") == Some(2) && Atoi("8") == Some(8) && Atoi("100") == Some(100)
  {
    AtoiDecimal("2");
    AtoiDecimal("8");
    AtoiDecimal("100");
    assert "100"[..2] == "10" && "10"[..1] == "1" && "1"[..0] == "" && "2"[..0] == "" && "8"[..0] == "";
  }
}
