/**
 * The theme loader's data logic (modules/themes.py, apply_theme): a theme
 * file is checked for emptiness, then parsed as JSON, then checked for the
 * seven required colour fields; a complete theme yields a four-role palette
 * and a Qt style sheet. The file is abstracted to what the checks observe,
 * and installing the palette and style sheet on the application is left to
 * the caller.
 */
module Themes {
  import opened Wrappers
  import opened Strings

  /** A theme file as the checks see it: zero bytes, not JSON, or a JSON object. */
  datatype ThemeFile = Empty | Malformed | Object(data: map<string, string>)

  /** Why a theme was rejected; nothing is applied in any of these cases. */
  datatype ThemeError =
    | EmptyFile
    | InvalidJson
    | MissingFields(fields: seq<string>)

  /** The four palette roles the loader sets. */
  datatype ColorRole = Window | WindowText | Button | ButtonText

  /** One `property: value;` line whose value is the theme field `field`. */
  datatype Decl = Decl(property: string, field: string)

  /** One style-sheet rule: a selector and its declarations. */
  datatype Rule = Rule(selector: string, decls: seq<Decl>)

  /** What a successful load installs on the application. */
  datatype Theme = Theme(palette: map<ColorRole, string>, stylesheet: string)

  /** The required fields, in the order in which missing ones are reported. */
  const RequiredFields: seq<string> := [
    "window_background", "window_text",
    "button_background", "button_text",
    "menu_background", "menu_text",
    "highlight_color"
  ]

  const MenuBarItemSelected := "QMenuBar::item:selected"
  const MenuItemSelected := "QMenu::item:selected"

  /** The rules of the generated style sheet, in the order they are written. */
  const StyleRules: seq<Rule> := [
    Rule("QMenuBar", [Decl("background-color", "menu_background"), Decl("color", "menu_text")]),
    Rule("QMenuBar::item", [Decl("background-color", "menu_background"), Decl("color", "menu_text")]),
    Rule(MenuBarItemSelected, [Decl("background-color", "highlight_color"), Decl("color", "menu_text")]),
    Rule("QMenu", [Decl("background-color", "menu_background"), Decl("color", "menu_text")]),
    Rule(MenuItemSelected, [Decl("background-color", "highlight_color"), Decl("color", "menu_text")]),
    Rule("QToolBar", [Decl("background-color", "menu_background")]),
    Rule("QMessageBox", [Decl("background-color", "window_background"), Decl("color", "window_text")]),
    Rule("QPushButton", [Decl("background-color", "button_background"), Decl("color", "button_text")])
  ]

  predicate HasRequired(data: map<string, string>)
  {
    forall f :: f in RequiredFields ==> f in data
  }

  /** `sub` is `s` with some elements removed and the rest kept in order. */
  ghost predicate Subsequence(sub: seq<string>, s: seq<string>)
    decreases |s|
  {
    if sub == [] then true
    else if s == [] then false
    else (sub[0] == s[0] && Subsequence(sub[1..], s[1..])) || Subsequence(sub, s[1..])
  }

  /** The names of `names` that `data` lacks, in the order of `names`. */
  function Missing(names: seq<string>, data: map<string, string>): (r: seq<string>)
    ensures forall n :: n in r <==> n in names && n !in data
    ensures Subsequence(r, names)
  {
    if names == [] then []
    else
      var rest := Missing(names[1..], data);
      if names[0] !in data then [names[0]] + rest
      else
        assert rest == [] || !Subsequence(rest, []);
        rest
  }

  /** The check of apply_theme: empty file first, then JSON, then the required fields. */
  function Validate(file: ThemeFile): (r: Result<map<string, string>, ThemeError>)
    ensures r.Success? <==> file.Object? && HasRequired(file.data)
    ensures r.Success? ==> r.value == file.data
    ensures file.Empty? ==> r == Failure(EmptyFile)
    ensures file.Malformed? ==> r == Failure(InvalidJson)
    ensures r.Failure? && r.error.MissingFields? ==>
      file.Object? && r.error.fields != [] &&
      Subsequence(r.error.fields, RequiredFields) &&
      (forall n :: n in r.error.fields <==> n in RequiredFields && n !in file.data)
  {
    match file
    case Empty => Failure(EmptyFile)
    case Malformed => Failure(InvalidJson)
    case Object(data) =>
      var missing := Missing(RequiredFields, data);
      if missing != [] then
        assert missing[0] in missing;
        Failure(MissingFields(missing))
      else Success(data)
  }

  /** The palette built from a complete theme: exactly four roles. */
  function MakePalette(data: map<string, string>): (p: map<ColorRole, string>)
    requires HasRequired(data)
    ensures p.Keys == {Window, WindowText, Button, ButtonText}
    ensures p[Window] == data["window_background"] && p[WindowText] == data["window_text"]
    ensures p[Button] == data["button_background"] && p[ButtonText] == data["button_text"]
  {
    map[Window := data["window_background"], WindowText := data["window_text"],
        Button := data["button_background"], ButtonText := data["button_text"]]
  }

  const Indent := "        "

  function RenderDecls(decls: seq<Decl>, data: map<string, string>): string
    requires forall d :: d in decls ==> d.field in data
  {
    if decls == [] then ""
    else Indent + "    " + decls[0].property + ": " + data[decls[0].field] + ";\n"
         + RenderDecls(decls[1..], data)
  }

  function RenderRule(rule: Rule, data: map<string, string>): string
    requires forall d :: d in rule.decls ==> d.field in data
  {
    Indent + rule.selector + " {\n" + RenderDecls(rule.decls, data) + Indent + "}\n"
  }

  predicate FieldsPresent(rules: seq<Rule>, data: map<string, string>)
  {
    forall r, d :: r in rules && d in r.decls ==> d.field in data
  }

  function RenderRules(rules: seq<Rule>, data: map<string, string>): string
    requires FieldsPresent(rules, data)
  {
    if rules == [] then ""
    else RenderRule(rules[0], data) + RenderRules(rules[1..], data)
  }

  /** Every declaration of the style sheet takes its value from a required field. */
  lemma StyleRulesUseOnlyRequired()
    ensures forall r, d :: r in StyleRules && d in r.decls ==> d.field in RequiredFields
  {
  }

  lemma StyleRulesUseRequiredFields(data: map<string, string>)
    requires HasRequired(data)
    ensures FieldsPresent(StyleRules, data)
  {
    StyleRulesUseOnlyRequired();
  }

  /** The style sheet text, laid out as the source's triple-quoted string. */
  function Stylesheet(data: map<string, string>): string
    requires HasRequired(data)
  {
    StyleRulesUseRequiredFields(data);
    "\n" + RenderRules(StyleRules, data) + Indent
  }

  /** apply_theme: validation, then the palette and the style sheet; on any error neither is produced. */
  function ApplyTheme(file: ThemeFile): (r: Result<Theme, ThemeError>)
    ensures r.Success? <==> Validate(file).Success?
    ensures r.Failure? ==> r.error == Validate(file).error
    ensures r.Success? ==>
      file.Object? && HasRequired(file.data) &&
      r.value == Theme(MakePalette(file.data), Stylesheet(file.data))
  {
    match Validate(file)
    case Failure(e) => Failure(e)
    case Success(data) => Success(Theme(MakePalette(data), Stylesheet(data)))
  }

  /** The text of the error box shown for a rejected theme at `path`. */
  function FailureMessage(path: string, e: ThemeError): string
  {
    match e
    case EmptyFile => "Failed to apply theme: Theme file " + path + " is empty"
    case InvalidJson => "Failed to apply theme: Invalid JSON format in " + path
    case MissingFields(fields) =>
      "Failed to apply theme: Missing required fields in theme file " + path + ": "
      + Join(fields, ", ")
  }

  // ---------------------------------------------------------------------
  // Properties

  /**
   * An applied theme sets the four palette roles from their fields and
   * carries every required value verbatim in its style sheet.
   */
  lemma AppliedThemeCarriesValues(file: ThemeFile)
    requires ApplyTheme(file).Success?
    ensures var t := ApplyTheme(file).value;
      && t.palette.Keys == {Window, WindowText, Button, ButtonText}
      && t.palette[Window] == file.data["window_background"]
      && t.palette[WindowText] == file.data["window_text"]
      && t.palette[Button] == file.data["button_background"]
      && t.palette[ButtonText] == file.data["button_text"]
      && forall f :: f in RequiredFields ==> Contains(t.stylesheet, file.data[f])
  {
    StylesheetShowsRequiredValues(file.data);
  }

  /** Validation succeeds exactly when all seven fields are present; extra keys do not matter. */
  lemma ValidIffComplete(data: map<string, string>)
    ensures Validate(Object(data)).Success? <==> forall i :: 0 <= i < |RequiredFields| ==> RequiredFields[i] in data
  {
    assert HasRequired(data) <==> forall i :: 0 <= i < |RequiredFields| ==> RequiredFields[i] in data;
  }

  /** One combined message names every missing field. */
  lemma MissingMessageNamesAll(path: string, data: map<string, string>, name: string)
    requires name in RequiredFields && name !in data
    ensures Validate(Object(data)).Failure?
    ensures Contains(FailureMessage(path, Validate(Object(data)).error), name)
  {
    var missing := Missing(RequiredFields, data);
    assert name in missing;
    var k :| 0 <= k < |missing| && missing[k] == name;
    JoinContainsParts(missing, ", ", k);
    ContainsInContext("Failed to apply theme: Missing required fields in theme file " + path + ": ",
                      Join(missing, ", "), "", name);
    assert "Failed to apply theme: Missing required fields in theme file " + path + ": "
           + Join(missing, ", ") + "" == FailureMessage(path, MissingFields(missing));
  }

  lemma {:induction false} DeclsShowValue(decls: seq<Decl>, data: map<string, string>, j: nat)
    requires forall d :: d in decls ==> d.field in data
    requires j < |decls|
    ensures Contains(RenderDecls(decls, data), data[decls[j].field])
  {
    var rest := RenderDecls(decls[1..], data);
    var head := Indent + "    " + decls[0].property + ": ";
    if j == 0 {
      ContainsSelf(head, data[decls[0].field], ";\n" + rest);
      assert head + data[decls[0].field] + (";\n" + rest) == RenderDecls(decls, data);
    } else {
      DeclsShowValue(decls[1..], data, j - 1);
      ContainsInContext(head + data[decls[0].field] + ";\n", rest, "", data[decls[j].field]);
      assert head + data[decls[0].field] + ";\n" + rest + "" == RenderDecls(decls, data);
    }
  }

  lemma {:induction false} RulesShowValue(rules: seq<Rule>, data: map<string, string>, i: nat, j: nat)
    requires FieldsPresent(rules, data)
    requires i < |rules| && j < |rules[i].decls|
    ensures Contains(RenderRules(rules, data), data[rules[i].decls[j].field])
  {
    var v := data[rules[i].decls[j].field];
    var rest := RenderRules(rules[1..], data);
    if i == 0 {
      var r := rules[0];
      DeclsShowValue(r.decls, data, j);
      ContainsInContext(Indent + r.selector + " {\n", RenderDecls(r.decls, data), Indent + "}\n", v);
      assert Indent + r.selector + " {\n" + RenderDecls(r.decls, data) + (Indent + "}\n") == RenderRule(r, data);
      ContainsInContext("", RenderRule(r, data), rest, v);
      assert "" + RenderRule(r, data) + rest == RenderRules(rules, data);
    } else {
      RulesShowValue(rules[1..], data, i - 1, j);
      ContainsInContext(RenderRule(rules[0], data), rest, "", v);
      assert RenderRule(rules[0], data) + rest + "" == RenderRules(rules, data);
    }
  }

  /** The value of declaration `j` of rule `i` appears verbatim in the style sheet. */
  lemma StylesheetShowsDecl(data: map<string, string>, i: nat, j: nat)
    requires HasRequired(data)
    requires i < |StyleRules| && j < |StyleRules[i].decls|
    ensures StyleRules[i].decls[j].field in data
    ensures Contains(Stylesheet(data), data[StyleRules[i].decls[j].field])
  {
    StyleRulesUseRequiredFields(data);
    var v := data[StyleRules[i].decls[j].field];
    RulesShowValue(StyleRules, data, i, j);
    ContainsInContext("\n", RenderRules(StyleRules, data), Indent, v);
  }

  /** Each of the seven required values appears verbatim in the style sheet. */
  lemma StylesheetShowsRequiredValues(data: map<string, string>)
    requires HasRequired(data)
    ensures forall f :: f in RequiredFields ==> Contains(Stylesheet(data), data[f])
  {
    // for each required field, a rule and declaration that use it
    StylesheetShowsDecl(data, 6, 0);  // window_background
    StylesheetShowsDecl(data, 6, 1);  // window_text
    StylesheetShowsDecl(data, 7, 0);  // button_background
    StylesheetShowsDecl(data, 7, 1);  // button_text
    StylesheetShowsDecl(data, 0, 0);  // menu_background
    StylesheetShowsDecl(data, 0, 1);  // menu_text
    StylesheetShowsDecl(data, 2, 0);  // highlight_color
  }

  lemma {:induction false} DeclsDependOnFieldsOnly(decls: seq<Decl>, d1: map<string, string>, d2: map<string, string>)
    requires forall d :: d in decls ==> d.field in d1 && d.field in d2 && d1[d.field] == d2[d.field]
    ensures RenderDecls(decls, d1) == RenderDecls(decls, d2)
  {
    if decls != [] {
      DeclsDependOnFieldsOnly(decls[1..], d1, d2);
    }
  }

  lemma {:induction false} RulesDependOnFieldsOnly(rules: seq<Rule>, d1: map<string, string>, d2: map<string, string>)
    requires FieldsPresent(rules, d1) && FieldsPresent(rules, d2)
    requires forall r, d :: r in rules && d in r.decls ==> d1[d.field] == d2[d.field]
    ensures RenderRules(rules, d1) == RenderRules(rules, d2)
  {
    if rules != [] {
      DeclsDependOnFieldsOnly(rules[0].decls, d1, d2);
      RulesDependOnFieldsOnly(rules[1..], d1, d2);
    }
  }

  /** Two maps that agree on the required fields. */
  ghost predicate AgreeOnRequired(d1: map<string, string>, d2: map<string, string>)
  {
    && (forall f :: f in RequiredFields ==> (f in d1 <==> f in d2))
    && (forall f :: f in RequiredFields && f in d1 ==> d1[f] == d2[f])
  }

  lemma PaletteUsesRequiredOnly(d1: map<string, string>, d2: map<string, string>)
    requires HasRequired(d1) && HasRequired(d2) && AgreeOnRequired(d1, d2)
    ensures MakePalette(d1) == MakePalette(d2)
  {
    assert d1["window_background"] == d2["window_background"] by { assert RequiredFields[0] == "window_background"; }
    assert d1["window_text"] == d2["window_text"] by { assert RequiredFields[1] == "window_text"; }
    assert d1["button_background"] == d2["button_background"] by { assert RequiredFields[2] == "button_background"; }
    assert d1["button_text"] == d2["button_text"] by { assert RequiredFields[3] == "button_text"; }
  }

  lemma StylesheetUsesRequiredOnly(d1: map<string, string>, d2: map<string, string>)
    requires HasRequired(d1) && HasRequired(d2) && AgreeOnRequired(d1, d2)
    ensures Stylesheet(d1) == Stylesheet(d2)
  {
    StyleRulesUseRequiredFields(d1);
    StyleRulesUseRequiredFields(d2);
    StyleRulesUseOnlyRequired();
    RulesDependOnFieldsOnly(StyleRules, d1, d2);
  }

  /** Keys beyond the seven required ones change nothing about the outcome. */
  lemma ExtraKeysIgnored(d1: map<string, string>, d2: map<string, string>)
    requires AgreeOnRequired(d1, d2)
    ensures ApplyTheme(Object(d1)) == ApplyTheme(Object(d2))
  {
    MissingDependsOnNamesOnly(RequiredFields, d1, d2);
    if HasRequired(d1) {
      assert HasRequired(d2);
      PaletteUsesRequiredOnly(d1, d2);
      StylesheetUsesRequiredOnly(d1, d2);
    }
  }

  lemma {:induction false} MissingDependsOnNamesOnly(names: seq<string>, d1: map<string, string>, d2: map<string, string>)
    requires forall f :: f in names ==> (f in d1 <==> f in d2)
    ensures Missing(names, d1) == Missing(names, d2)
  {
    if names != [] {
      MissingDependsOnNamesOnly(names[1..], d1, d2);
    }
  }

  /** highlight_color colours exactly the two `:selected` rules; menu_background also colours the tool bar. */
  lemma HighlightOnlyWhenSelected()
    ensures forall r, d :: r in StyleRules && d in r.decls && d.field == "highlight_color" ==>
      r.selector == MenuBarItemSelected || r.selector == MenuItemSelected
    ensures Decl("background-color", "highlight_color") in StyleRules[2].decls && StyleRules[2].selector == MenuBarItemSelected
    ensures Decl("background-color", "highlight_color") in StyleRules[4].decls && StyleRules[4].selector == MenuItemSelected
    ensures StyleRules[5] == Rule("QToolBar", [Decl("background-color", "menu_background")])
  {
  }
}
