/**
 * The settings dialog's data logic (config/settings_dialog.py, class
 * SettingsDialog): one editable field per settings key, chosen by key name
 * and value type, and a save that writes the fields back into the settings
 * record dictionary by dictionary, in place. Widgets are reduced to the
 * state the save reads from them.
 */
module SettingsDialog {
  import opened Wrappers
  import opened Strings
  import opened Settings

  const AboutTab := "About Info"
  const ModulesTab := "Modules"
  const AppTab := "App Defaults"
  const LoggingTab := "Logging Settings"

  const IconKey := "icon"
  const StartMaximized := "start_maximized"
  const DarkMode := "dark_mode"
  const LevelKey := "level"

  /** The entries of the start_maximized and level drop-downs. */
  const Booleans: seq<string> := ["True", "False"]
  const Levels: seq<string> := ["DEBUG", "INFO", "WARNING", "ERROR", "CRITICAL"]

  /** An editing widget: a line edit, a check box with its caption, or a drop-down with its selected index. */
  datatype Field =
    | LineEdit(text: string)
    | CheckBox(caption: string, checked: bool)
    | ComboBox(items: seq<string>, index: int)

  /** The dialog's fields are keyed by tab title and settings key. */
  datatype FieldKey = FieldKey(tab: string, key: string)

  // ---------------------------------------------------------------------
  // What the widgets answer

  /** text(): a line edit's text or a check box's caption; a drop-down has no text() and raises. */
  function TextOf(f: Field): Option<string>
  {
    match f
    case LineEdit(t) => Some(t)
    case CheckBox(caption, _) => Some(caption)
    case ComboBox(_, _) => None
  }

  /** isChecked(): only a check box answers; the other widgets raise. */
  function CheckedOf(f: Field): Option<bool>
  {
    match f
    case CheckBox(_, c) => Some(c)
    case _ => None
  }

  /** currentText(): the selected entry, or "" when nothing is selected. */
  function CurrentText(items: seq<string>, index: int): string
  {
    if 0 <= index < |items| then items[index] else ""
  }

  /** The first position of `t` in `items`. */
  function IndexOf(items: seq<string>, t: string): (i: nat)
    requires t in items
    ensures i < |items| && items[i] == t && t !in items[..i]
  {
    if items[0] == t then 0 else 1 + IndexOf(items[1..], t)
  }

  /**
   * A drop-down filled with `items` (which selects the first) after
   * setCurrentText(t): the entry equal to `t` is selected when there is
   * one, otherwise the selection stays on the first entry.
   */
  function Select(items: seq<string>, t: string): (f: Field)
    requires items != []
    ensures f.ComboBox? && f.items == items
    ensures CurrentText(f.items, f.index) == if t in items then t else items[0]
  {
    ComboBox(items, if t in items then IndexOf(items, t) else 0)
  }

  /** str(value) */
  function PyStr(v: Setting): string
  {
    match v
    case Str(s) => s
    case Flag(b) => if b then "True" else "False"
  }

  /** Python truth value: a non-empty string, or True. */
  predicate Truthy(v: Setting)
  {
    match v
    case Str(s) => s != ""
    case Flag(b) => b
  }

  // ---------------------------------------------------------------------
  // Building the fields

  /** The widget the App Defaults tab makes for `key` holding `v`. */
  function AppWidget(key: string, v: Setting): Field
  {
    if key == StartMaximized then Select(Booleans, if Truthy(v) then "True" else "False")
    else if key == DarkMode then CheckBox("Enable Dark Mode", v == Str("True"))
    else match v
      case Flag(b) => CheckBox("", b)
      case Str(s) => LineEdit(s)
  }

  /** The widget the Logging Settings tab makes for `key` holding `v`. */
  function LoggingWidget(key: string, v: Setting): Field
  {
    if key == LevelKey then Select(Levels, PyStr(v))
    else match v
      case Flag(b) => CheckBox("", b)
      case Str(s) => LineEdit(s)
  }

  /** The widgets of each tab by settings key; the icon gets none. */
  function AboutWidgets(d: Dict<string>): map<string, Field>
  {
    map k | k in d.vals && k != IconKey :: LineEdit(d.vals[k])
  }

  function ModuleWidgets(d: Dict<bool>): map<string, Field>
  {
    map k | k in d.vals :: CheckBox(Capitalize(k), d.vals[k])
  }

  function AppWidgets(d: Dict<Setting>): map<string, Field>
  {
    map k | k in d.vals :: AppWidget(k, d.vals[k])
  }

  function LoggingWidgets(d: Dict<Setting>): map<string, Field>
  {
    map k | k in d.vals :: LoggingWidget(k, d.vals[k])
  }

  /** The fields a tab titled `tab` registers for the keys `ks`, in that order. */
  function TabFields(tab: string, ks: seq<string>, widgets: map<string, Field>): map<FieldKey, Field>
    decreases |ks|
  {
    if ks == [] then map[]
    else
      var rest := TabFields(tab, ks[..|ks| - 1], widgets);
      var k := ks[|ks| - 1];
      if k in widgets then rest[FieldKey(tab, k) := widgets[k]] else rest
  }

  /** All fields of a freshly opened dialog. */
  function BuildFields(st: SettingsState): map<FieldKey, Field>
  {
    TabFields(AboutTab, st.aboutInfo.keys, AboutWidgets(st.aboutInfo))
    + TabFields(ModulesTab, st.modules.keys, ModuleWidgets(st.modules))
    + TabFields(AppTab, st.appDefaults.keys, AppWidgets(st.appDefaults))
    + TabFields(LoggingTab, st.loggingDefaults.keys, LoggingWidgets(st.loggingDefaults))
  }

  /** Registering one more field on top of what is already there. */
  lemma TabFieldsExtend(prior: map<FieldKey, Field>, tab: string, ks: seq<string>, i: nat, widgets: map<string, Field>)
    requires i < |ks|
    ensures ks[i] in widgets ==>
      prior + TabFields(tab, ks[..i + 1], widgets) == (prior + TabFields(tab, ks[..i], widgets))[FieldKey(tab, ks[i]) := widgets[ks[i]]]
    ensures ks[i] !in widgets ==>
      prior + TabFields(tab, ks[..i + 1], widgets) == prior + TabFields(tab, ks[..i], widgets)
  {
    assert ks[..i + 1][..i] == ks[..i];
  }

  // ---------------------------------------------------------------------
  // Saving

  /** What saving writes for one key of each dictionary; None when the Python code raises. */
  function AboutValue(fields: map<FieldKey, Field>, key: string): Option<string>
  {
    var fk := FieldKey(AboutTab, key);
    if fk !in fields then None
    else match TextOf(fields[fk])
      case None => None
      case Some(t) => Some(Strip(t))
  }

  function ModuleValue(fields: map<FieldKey, Field>, key: string): Option<bool>
  {
    var fk := FieldKey(ModulesTab, key);
    if fk !in fields then None else CheckedOf(fields[fk])
  }

  function AppValue(fields: map<FieldKey, Field>, key: string): Option<Setting>
  {
    var fk := FieldKey(AppTab, key);
    if fk !in fields then None
    else
      var f := fields[fk];
      if key == DarkMode then
        match CheckedOf(f)
        case None => None
        case Some(c) => Some(Str(if c then "True" else "False"))
      else if f.ComboBox? then Some(Str(CurrentText(f.items, f.index)))
      else match TextOf(f)
        case None => None
        case Some(t) => Some(Str(Strip(t)))
  }

  function LoggingValue(fields: map<FieldKey, Field>, key: string): Option<Setting>
  {
    var fk := FieldKey(LoggingTab, key);
    if fk !in fields then None
    else
      var f := fields[fk];
      if f.ComboBox? then
        if key == LevelKey then Some(Str(CurrentText(f.items, f.index)))
        else Some(Flag(CurrentText(f.items, f.index) == "True"))
      else match TextOf(f)
        case None => None
        case Some(t) => Some(Str(Strip(t)))
  }

  /** The values a save writes, by key; keys it skips are absent. */
  function AboutUpdates(fields: map<FieldKey, Field>, d: Dict<string>): map<string, Option<string>>
  {
    map k | k in d.vals && k != IconKey :: AboutValue(fields, k)
  }

  function ModuleUpdates(fields: map<FieldKey, Field>, d: Dict<bool>): map<string, Option<bool>>
  {
    map k | k in d.vals :: ModuleValue(fields, k)
  }

  function AppUpdates(fields: map<FieldKey, Field>, d: Dict<Setting>): map<string, Option<Setting>>
  {
    map k | k in d.vals :: AppValue(fields, k)
  }

  function LoggingUpdates(fields: map<FieldKey, Field>, d: Dict<Setting>): map<string, Option<Setting>>
  {
    map k | k in d.vals :: LoggingValue(fields, k)
  }

  /**
   * Writing `updates` into `vals` key by key in the order `keys`: the first
   * key whose update raises stops the loop, and the writes before it stay.
   * The flag says whether every write was made.
   */
  function ApplyInOrder<V>(keys: seq<string>, vals: map<string, V>, updates: map<string, Option<V>>): (map<string, V>, bool)
  {
    if keys == [] then (vals, true)
    else if keys[0] !in updates then ApplyInOrder(keys[1..], vals, updates)
    else match updates[keys[0]]
      case None => (vals, false)
      case Some(v) => ApplyInOrder(keys[1..], vals[keys[0] := v], updates)
  }

  /** One step of ApplyInOrder at position `i`. */
  lemma ApplyInOrderStep<V>(keys: seq<string>, i: nat, vals: map<string, V>, updates: map<string, Option<V>>)
    requires i < |keys|
    ensures keys[i] !in updates ==>
      ApplyInOrder(keys[i..], vals, updates) == ApplyInOrder(keys[i + 1..], vals, updates)
    ensures keys[i] in updates && updates[keys[i]].None? ==>
      ApplyInOrder(keys[i..], vals, updates) == (vals, false)
    ensures keys[i] in updates && updates[keys[i]].Some? ==>
      ApplyInOrder(keys[i..], vals, updates) == ApplyInOrder(keys[i + 1..], vals[keys[i] := updates[keys[i]].value], updates)
  {
    assert keys[i..][1..] == keys[i + 1..];
  }

  /** One dictionary's loop of save_settings: its keys in order, stopping at the first exception. */
  function SaveDict<V>(d: Dict<V>, updates: map<string, Option<V>>): (Dict<V>, bool)
  {
    var (vals, ok) := ApplyInOrder(d.keys, d.vals, updates);
    (Dict(d.keys, vals), ok)
  }

  /** save_settings on the record `st`: the four dictionaries in turn, stopping at the first exception. */
  function SaveAll(fields: map<FieldKey, Field>, st: SettingsState): (SettingsState, bool)
  {
    var (about, okAbout) := SaveDict(st.aboutInfo, AboutUpdates(fields, st.aboutInfo));
    if !okAbout then (st.(aboutInfo := about), false) else
    var (modules, okModules) := SaveDict(st.modules, ModuleUpdates(fields, st.modules));
    if !okModules then (st.(aboutInfo := about, modules := modules), false) else
    var (app, okApp) := SaveDict(st.appDefaults, AppUpdates(fields, st.appDefaults));
    if !okApp then (st.(aboutInfo := about, modules := modules, appDefaults := app), false) else
    var (logging, okLogging) := SaveDict(st.loggingDefaults, LoggingUpdates(fields, st.loggingDefaults));
    (SettingsState(about, modules, app, logging), okLogging)
  }

  // ---------------------------------------------------------------------
  // Properties of saving

  /** Position `j` holds the first key whose update raises. */
  ghost predicate FailsFirstAt<V>(keys: seq<string>, updates: map<string, Option<V>>, j: int)
  {
    && 0 <= j < |keys| && keys[j] in updates && updates[keys[j]].None?
    && forall i :: 0 <= i < j && keys[i] in updates ==> updates[keys[i]].Some?
  }

  /**
   * Writing in order succeeds exactly when no update on the way raises; it
   * then holds every update and leaves every other entry alone.
   */
  lemma {:induction false} ApplyInOrderWritesAll<V>(keys: seq<string>, vals: map<string, V>, updates: map<string, Option<V>>)
    ensures ApplyInOrder(keys, vals, updates).1 <==>
      forall k :: k in keys && k in updates ==> updates[k].Some?
    ensures ApplyInOrder(keys, vals, updates).1 ==>
      var r := ApplyInOrder(keys, vals, updates).0;
      && (forall k :: k in r <==> k in vals || (k in keys && k in updates))
      && (forall k :: k in keys && k in updates ==> r[k] == updates[k].value)
      && (forall k :: k in vals && !(k in keys && k in updates) ==> r[k] == vals[k])
  {
    if keys != [] {
      var k0 := keys[0];
      if k0 !in updates {
        ApplyInOrderWritesAll(keys[1..], vals, updates);
      } else if updates[k0].Some? {
        ApplyInOrderWritesAll(keys[1..], vals[k0 := updates[k0].value], updates);
      } else {
        assert k0 in keys;
      }
      assert forall k :: k in keys <==> k == k0 || k in keys[1..];
    }
  }

  /**
   * No rollback: when an update raises, the writes for the keys before it
   * stay and nothing from it on is written.
   */
  lemma {:induction false} ApplyInOrderStopsAtFailure<V>(keys: seq<string>, vals: map<string, V>, updates: map<string, Option<V>>)
    requires !ApplyInOrder(keys, vals, updates).1
    ensures exists j :: (FailsFirstAt(keys, updates, j) &&
      ApplyInOrder(keys, vals, updates) == (ApplyInOrder(keys[..j], vals, updates).0, false))
  {
    var k0 := keys[0];
    if k0 in updates && updates[k0].None? {
      assert FailsFirstAt(keys, updates, 0);
      assert keys[..0] == [];
    } else {
      var vals' := if k0 in updates then vals[k0 := updates[k0].value] else vals;
      ApplyInOrderStopsAtFailure(keys[1..], vals', updates);
      var j :| FailsFirstAt(keys[1..], updates, j) &&
        ApplyInOrder(keys[1..], vals', updates) == (ApplyInOrder(keys[1..][..j], vals', updates).0, false);
      assert keys[..j + 1][1..] == keys[1..][..j];
      assert FailsFirstAt(keys, updates, j + 1) by {
        forall i | 0 <= i < j + 1 && keys[i] in updates ensures updates[keys[i]].Some? {
          if i > 0 { assert keys[i] == keys[1..][i - 1]; }
        }
      }
    }
  }

  /** Writing in order only overwrites existing keys when every update is for one. */
  lemma {:induction false} ApplyInOrderKeepsKeys<V>(keys: seq<string>, vals: map<string, V>, updates: map<string, Option<V>>)
    requires updates.Keys <= vals.Keys
    ensures ApplyInOrder(keys, vals, updates).0.Keys == vals.Keys
  {
    if keys != [] && keys[0] in updates && updates[keys[0]].Some? {
      ApplyInOrderKeepsKeys(keys[1..], vals[keys[0] := updates[keys[0]].value], updates);
    } else if keys != [] && keys[0] !in updates {
      ApplyInOrderKeepsKeys(keys[1..], vals, updates);
    }
  }

  /** A save, finished or not, leaves a well-formed dictionary. */
  lemma SaveDictValid<V>(d: Dict<V>, updates: map<string, Option<V>>)
    requires d.Valid() && updates.Keys <= d.vals.Keys
    ensures SaveDict(d, updates).0.Valid()
  {
    ApplyInOrderKeepsKeys(d.keys, d.vals, updates);
  }

  /** A save, finished or stopped by an exception, leaves a well-formed record, so it can be repeated. */
  lemma SaveAllValid(fields: map<FieldKey, Field>, st: SettingsState)
    requires st.Valid()
    ensures SaveAll(fields, st).0.Valid()
  {
    SaveDictValid(st.aboutInfo, AboutUpdates(fields, st.aboutInfo));
    SaveDictValid(st.modules, ModuleUpdates(fields, st.modules));
    SaveDictValid(st.appDefaults, AppUpdates(fields, st.appDefaults));
    SaveDictValid(st.loggingDefaults, LoggingUpdates(fields, st.loggingDefaults));
  }

  /** A save, finished or stopped by an exception, never writes the icon path. */
  lemma SaveKeepsIcon(fields: map<FieldKey, Field>, st: SettingsState)
    requires IconKey in st.aboutInfo.vals
    ensures IconKey in SaveAll(fields, st).0.aboutInfo.vals
    ensures SaveAll(fields, st).0.aboutInfo.vals[IconKey] == st.aboutInfo.vals[IconKey]
  {
    var d := st.aboutInfo;
    var updates := AboutUpdates(fields, d);
    assert IconKey !in updates;
    if ApplyInOrder(d.keys, d.vals, updates).1 {
      ApplyInOrderWritesAll(d.keys, d.vals, updates);
    } else {
      ApplyInOrderStopsAtFailure(d.keys, d.vals, updates);
      var j :| FailsFirstAt(d.keys, updates, j) &&
        ApplyInOrder(d.keys, d.vals, updates) == (ApplyInOrder(d.keys[..j], d.vals, updates).0, false);
      ApplyInOrderWritesAll(d.keys[..j], d.vals, updates);
    }
  }

  // ---------------------------------------------------------------------
  // Properties of the fields

  lemma {:induction false} TabFieldsAt(tab: string, ks: seq<string>, widgets: map<string, Field>, fk: FieldKey)
    ensures fk in TabFields(tab, ks, widgets) <==> fk.tab == tab && fk.key in ks && fk.key in widgets
    ensures fk in TabFields(tab, ks, widgets) ==> TabFields(tab, ks, widgets)[fk] == widgets[fk.key]
    decreases |ks|
  {
    if ks != [] {
      var init := ks[..|ks| - 1];
      TabFieldsAt(tab, init, widgets, fk);
      assert forall k :: k in ks <==> k in init || k == ks[|ks| - 1] by {
        assert ks == init + [ks[|ks| - 1]];
      }
    }
  }

  /**
   * The fields of a freshly opened dialog: one per key of each dictionary,
   * under its tab's title, except the icon; the widget kind follows the key
   * and its value.
   */
  lemma BuiltFieldAt(st: SettingsState, fk: FieldKey)
    requires st.Valid()
    ensures fk in BuildFields(st) <==>
      || (fk.tab == AboutTab && fk.key in st.aboutInfo.vals && fk.key != IconKey)
      || (fk.tab == ModulesTab && fk.key in st.modules.vals)
      || (fk.tab == AppTab && fk.key in st.appDefaults.vals)
      || (fk.tab == LoggingTab && fk.key in st.loggingDefaults.vals)
    ensures fk in BuildFields(st) && fk.tab == AboutTab ==>
      BuildFields(st)[fk] == LineEdit(st.aboutInfo.vals[fk.key])
    ensures fk in BuildFields(st) && fk.tab == ModulesTab ==>
      BuildFields(st)[fk] == CheckBox(Capitalize(fk.key), st.modules.vals[fk.key])
    ensures fk in BuildFields(st) && fk.tab == AppTab ==>
      BuildFields(st)[fk] == AppWidget(fk.key, st.appDefaults.vals[fk.key])
    ensures fk in BuildFields(st) && fk.tab == LoggingTab ==>
      BuildFields(st)[fk] == LoggingWidget(fk.key, st.loggingDefaults.vals[fk.key])
  {
    TabFieldsAt(AboutTab, st.aboutInfo.keys, AboutWidgets(st.aboutInfo), fk);
    TabFieldsAt(ModulesTab, st.modules.keys, ModuleWidgets(st.modules), fk);
    TabFieldsAt(AppTab, st.appDefaults.keys, AppWidgets(st.appDefaults), fk);
    TabFieldsAt(LoggingTab, st.loggingDefaults.keys, LoggingWidgets(st.loggingDefaults), fk);
  }

  lemma AboutFieldBuilt(st: SettingsState, k: string)
    requires st.Valid() && k != IconKey && k in st.aboutInfo.vals
    ensures FieldKey(AboutTab, k) in BuildFields(st) && BuildFields(st)[FieldKey(AboutTab, k)] == LineEdit(st.aboutInfo.vals[k])
  {
    BuiltFieldAt(st, FieldKey(AboutTab, k));
  }

  lemma ModuleFieldBuilt(st: SettingsState, k: string)
    requires st.Valid() && k in st.modules.vals
    ensures FieldKey(ModulesTab, k) in BuildFields(st) && BuildFields(st)[FieldKey(ModulesTab, k)] == CheckBox(Capitalize(k), st.modules.vals[k])
  {
    BuiltFieldAt(st, FieldKey(ModulesTab, k));
  }

  lemma AppFieldBuilt(st: SettingsState, k: string)
    requires st.Valid() && k in st.appDefaults.vals
    ensures FieldKey(AppTab, k) in BuildFields(st) && BuildFields(st)[FieldKey(AppTab, k)] == AppWidget(k, st.appDefaults.vals[k])
  {
    BuiltFieldAt(st, FieldKey(AppTab, k));
  }

  lemma LoggingFieldBuilt(st: SettingsState, k: string)
    requires st.Valid() && k in st.loggingDefaults.vals
    ensures FieldKey(LoggingTab, k) in BuildFields(st) && BuildFields(st)[FieldKey(LoggingTab, k)] == LoggingWidget(k, st.loggingDefaults.vals[k])
  {
    BuiltFieldAt(st, FieldKey(LoggingTab, k));
  }

  /** The level drop-down offers the five levels and selects the stored one, or DEBUG when it is not one of them. */
  lemma LevelFieldChoices(st: SettingsState)
    requires st.Valid() && LevelKey in st.loggingDefaults.vals
    ensures FieldKey(LoggingTab, LevelKey) in BuildFields(st)
    ensures var f := BuildFields(st)[FieldKey(LoggingTab, LevelKey)];
      var v := PyStr(st.loggingDefaults.vals[LevelKey]);
      f.ComboBox? && f.items == Levels &&
      CurrentText(f.items, f.index) == if v in Levels then v else "DEBUG"
  {
    BuiltFieldAt(st, FieldKey(LoggingTab, LevelKey));
  }

  /**
   * start_maximized is shown as a True/False drop-down selecting "True"
   * exactly when the stored value is truthy; dark_mode as a check box
   * checked exactly when the stored value is the string "True".
   */
  lemma AppFlagFields(st: SettingsState)
    requires st.Valid()
    ensures StartMaximized in st.appDefaults.vals ==>
      FieldKey(AppTab, StartMaximized) in BuildFields(st) &&
      var f := BuildFields(st)[FieldKey(AppTab, StartMaximized)];
      f.ComboBox? && f.items == Booleans &&
      (CurrentText(f.items, f.index) == "True" <==> Truthy(st.appDefaults.vals[StartMaximized]))
    ensures DarkMode in st.appDefaults.vals ==>
      FieldKey(AppTab, DarkMode) in BuildFields(st) &&
      BuildFields(st)[FieldKey(AppTab, DarkMode)] ==
        CheckBox("Enable Dark Mode", st.appDefaults.vals[DarkMode] == Str("True"))
  {
    if StartMaximized in st.appDefaults.vals {
      AppFieldBuilt(st, StartMaximized);
    }
    if DarkMode in st.appDefaults.vals {
      AppFieldBuilt(st, DarkMode);
    }
  }

  // ---------------------------------------------------------------------
  // Opening the dialog and saving without edits

  /** What an unedited save writes for each key, stated key by key. */
  function UneditedAbout(key: string, v: string): string
  {
    if key == IconKey then v else Strip(v)
  }

  function UneditedApp(key: string, v: Setting): Setting
  {
    if key == StartMaximized then Str(if Truthy(v) then "True" else "False")
    else if key == DarkMode then Str(if v == Str("True") then "True" else "False")
    else match v
      case Flag(_) => Str("")
      case Str(s) => Str(Strip(s))
  }

  function UneditedLogging(key: string, v: Setting): Setting
  {
    if key == LevelKey then Str(if PyStr(v) in Levels then PyStr(v) else "DEBUG")
    else match v
      case Flag(_) => Str("")
      case Str(s) => Str(Strip(s))
  }

  /** The record after opening the dialog and pressing Save at once. */
  function UneditedSave(st: SettingsState): SettingsState
  {
    SettingsState(
      Dict(st.aboutInfo.keys, map k | k in st.aboutInfo.vals :: UneditedAbout(k, st.aboutInfo.vals[k])),
      st.modules,
      Dict(st.appDefaults.keys, map k | k in st.appDefaults.vals :: UneditedApp(k, st.appDefaults.vals[k])),
      Dict(st.loggingDefaults.keys, map k | k in st.loggingDefaults.vals :: UneditedLogging(k, st.loggingDefaults.vals[k])))
  }

  lemma StripEmpty()
    ensures Strip("") == ""
  {
    assert StripLeading("") == "";
  }

  /** `fields` shows each entry of a dictionary the way a fresh dialog does. */
  ghost predicate ShowsAbout(fields: map<FieldKey, Field>, d: Dict<string>)
  {
    forall k :: k in d.vals && k != IconKey ==>
      FieldKey(AboutTab, k) in fields && fields[FieldKey(AboutTab, k)] == LineEdit(d.vals[k])
  }

  ghost predicate ShowsModules(fields: map<FieldKey, Field>, d: Dict<bool>)
  {
    forall k :: k in d.vals ==>
      FieldKey(ModulesTab, k) in fields && fields[FieldKey(ModulesTab, k)] == CheckBox(Capitalize(k), d.vals[k])
  }

  ghost predicate ShowsApp(fields: map<FieldKey, Field>, d: Dict<Setting>)
  {
    forall k :: k in d.vals ==>
      FieldKey(AppTab, k) in fields && fields[FieldKey(AppTab, k)] == AppWidget(k, d.vals[k])
  }

  ghost predicate ShowsLogging(fields: map<FieldKey, Field>, d: Dict<Setting>)
  {
    forall k :: k in d.vals ==>
      FieldKey(LoggingTab, k) in fields && fields[FieldKey(LoggingTab, k)] == LoggingWidget(k, d.vals[k])
  }

  /** A save in which every update succeeds writes exactly the expected values. */
  lemma SaveDictWritesAll<V>(d: Dict<V>, updates: map<string, Option<V>>, expected: map<string, V>)
    requires d.Valid() && updates.Keys <= d.vals.Keys && expected.Keys == d.vals.Keys
    requires forall k :: k in updates ==> updates[k] == Some(expected[k])
    requires forall k :: k in d.vals && k !in updates ==> expected[k] == d.vals[k]
    ensures SaveDict(d, updates) == (Dict(d.keys, expected), true)
  {
    ApplyInOrderWritesAll(d.keys, d.vals, updates);
    var written := ApplyInOrder(d.keys, d.vals, updates).0;
    assert written.Keys == expected.Keys;
    assert written == expected;
  }

  lemma UneditedAboutSave(fields: map<FieldKey, Field>, d: Dict<string>)
    requires d.Valid() && ShowsAbout(fields, d)
    ensures SaveDict(d, AboutUpdates(fields, d)) ==
      (Dict(d.keys, map k | k in d.vals :: UneditedAbout(k, d.vals[k])), true)
  {
    var expected := map k | k in d.vals :: UneditedAbout(k, d.vals[k]);
    SaveDictWritesAll(d, AboutUpdates(fields, d), expected);
  }

  lemma UneditedModulesSave(fields: map<FieldKey, Field>, d: Dict<bool>)
    requires d.Valid() && ShowsModules(fields, d)
    ensures SaveDict(d, ModuleUpdates(fields, d)) == (d, true)
  {
    SaveDictWritesAll(d, ModuleUpdates(fields, d), d.vals);
  }

  /** What saving reads back from an app default's untouched widget. */
  lemma AppWidgetSaved(fields: map<FieldKey, Field>, k: string, v: Setting)
    requires FieldKey(AppTab, k) in fields && fields[FieldKey(AppTab, k)] == AppWidget(k, v)
    ensures AppValue(fields, k) == Some(UneditedApp(k, v))
  {
    var f := fields[FieldKey(AppTab, k)];
    if k == StartMaximized {
      assert f == Select(Booleans, if Truthy(v) then "True" else "False");
    } else if k == DarkMode {
      assert f.CheckBox?;
    } else if v.Flag? {
      assert f == CheckBox("", v.b);
      StripEmpty();
    } else {
      assert f == LineEdit(v.s);
    }
  }

  /** What saving reads back from a logging default's untouched widget. */
  lemma LoggingWidgetSaved(fields: map<FieldKey, Field>, k: string, v: Setting)
    requires FieldKey(LoggingTab, k) in fields && fields[FieldKey(LoggingTab, k)] == LoggingWidget(k, v)
    ensures LoggingValue(fields, k) == Some(UneditedLogging(k, v))
  {
    var f := fields[FieldKey(LoggingTab, k)];
    if k == LevelKey {
      assert f == Select(Levels, PyStr(v));
    } else if v.Flag? {
      assert f == CheckBox("", v.b);
      StripEmpty();
    } else {
      assert f == LineEdit(v.s);
    }
  }

  lemma UneditedAppSave(fields: map<FieldKey, Field>, d: Dict<Setting>)
    requires d.Valid() && ShowsApp(fields, d)
    ensures SaveDict(d, AppUpdates(fields, d)) ==
      (Dict(d.keys, map k | k in d.vals :: UneditedApp(k, d.vals[k])), true)
  {
    var updates := AppUpdates(fields, d);
    var expected := map k | k in d.vals :: UneditedApp(k, d.vals[k]);
    forall k | k in updates ensures updates[k] == Some(expected[k]) {
      AppWidgetSaved(fields, k, d.vals[k]);
    }
    SaveDictWritesAll(d, updates, expected);
  }

  lemma UneditedLoggingSave(fields: map<FieldKey, Field>, d: Dict<Setting>)
    requires d.Valid() && ShowsLogging(fields, d)
    ensures SaveDict(d, LoggingUpdates(fields, d)) ==
      (Dict(d.keys, map k | k in d.vals :: UneditedLogging(k, d.vals[k])), true)
  {
    var updates := LoggingUpdates(fields, d);
    var expected := map k | k in d.vals :: UneditedLogging(k, d.vals[k]);
    forall k | k in updates ensures updates[k] == Some(expected[k]) {
      LoggingWidgetSaved(fields, k, d.vals[k]);
    }
    SaveDictWritesAll(d, updates, expected);
  }

  /** A fresh dialog's fields show every dictionary of the record it was opened on. */
  lemma BuiltFieldsShowRecord(st: SettingsState)
    requires st.Valid()
    ensures ShowsAbout(BuildFields(st), st.aboutInfo) && ShowsModules(BuildFields(st), st.modules)
    ensures ShowsApp(BuildFields(st), st.appDefaults) && ShowsLogging(BuildFields(st), st.loggingDefaults)
  {
    forall k | k in st.aboutInfo.vals && k != IconKey { AboutFieldBuilt(st, k); }
    forall k | k in st.modules.vals { ModuleFieldBuilt(st, k); }
    forall k | k in st.appDefaults.vals { AppFieldBuilt(st, k); }
    forall k | k in st.loggingDefaults.vals { LoggingFieldBuilt(st, k); }
  }

  /** Opening the dialog and saving without edits always completes and writes UneditedSave. */
  lemma SaveWithoutEdits(st: SettingsState)
    requires st.Valid()
    ensures SaveAll(BuildFields(st), st) == (UneditedSave(st), true)
  {
    var fields := BuildFields(st);
    BuiltFieldsShowRecord(st);
    UneditedAboutSave(fields, st.aboutInfo);
    UneditedModulesSave(fields, st.modules);
    UneditedAppSave(fields, st.appDefaults);
    UneditedLoggingSave(fields, st.loggingDefaults);
  }

  // ---------------------------------------------------------------------
  // Repeated unedited saves

  /**
   * The values an unedited save leaves as they are: about texts without
   * surrounding white space, start_maximized "True", dark_mode "True" or
   * "False", a level the drop-down lists, and every other app or logging
   * value a stripped string.
   */
  ghost predicate AboutValueSettled(k: string, v: string)
  {
    k != IconKey ==> IsStripped(v)
  }

  ghost predicate AboutSettled(d: Dict<string>)
  {
    forall k :: k in d.vals ==> AboutValueSettled(k, d.vals[k])
  }

  ghost predicate AppValueSettled(k: string, v: Setting)
  {
    && v.Str?
    && (k == StartMaximized ==> v.s == "True")
    && (k == DarkMode ==> v.s in Booleans)
    && (k != StartMaximized && k != DarkMode ==> IsStripped(v.s))
  }

  ghost predicate LoggingValueSettled(k: string, v: Setting)
  {
    && v.Str?
    && (k == LevelKey ==> v.s in Levels)
    && (k != LevelKey ==> IsStripped(v.s))
  }

  ghost predicate AppSettled(d: Dict<Setting>)
  {
    forall k :: k in d.vals ==> AppValueSettled(k, d.vals[k])
  }

  ghost predicate LoggingSettled(d: Dict<Setting>)
  {
    forall k :: k in d.vals ==> LoggingValueSettled(k, d.vals[k])
  }

  ghost predicate Settled(st: SettingsState)
  {
    AboutSettled(st.aboutInfo) && AppSettled(st.appDefaults) && LoggingSettled(st.loggingDefaults)
  }

  lemma UneditedAppFixed(k: string, v: Setting)
    ensures UneditedApp(k, v) == v <==> AppValueSettled(k, v)
  {
    if v.Str? && k != StartMaximized && k != DarkMode {
      if IsStripped(v.s) { StrippedUnchanged(v.s); }
    }
  }

  lemma UneditedLoggingFixed(k: string, v: Setting)
    ensures UneditedLogging(k, v) == v <==> LoggingValueSettled(k, v)
  {
    if v.Str? && k != LevelKey {
      if IsStripped(v.s) { StrippedUnchanged(v.s); }
    }
  }

  lemma UneditedAboutFixed(k: string, v: string)
    ensures UneditedAbout(k, v) == v <==> AboutValueSettled(k, v)
  {
    if k != IconKey && IsStripped(v) { StrippedUnchanged(v); }
  }

  lemma AboutFixedIff(d: Dict<string>)
    ensures (map k | k in d.vals :: UneditedAbout(k, d.vals[k])) == d.vals <==> AboutSettled(d)
  {
    var u := map k | k in d.vals :: UneditedAbout(k, d.vals[k]);
    forall k | k in d.vals { UneditedAboutFixed(k, d.vals[k]); }
    if u == d.vals {
      forall k | k in d.vals ensures UneditedAbout(k, d.vals[k]) == d.vals[k] {
        assert u[k] == UneditedAbout(k, d.vals[k]);
      }
    }
  }

  lemma AppFixedIff(d: Dict<Setting>)
    ensures (map k | k in d.vals :: UneditedApp(k, d.vals[k])) == d.vals <==> AppSettled(d)
  {
    var u := map k | k in d.vals :: UneditedApp(k, d.vals[k]);
    forall k | k in d.vals { UneditedAppFixed(k, d.vals[k]); }
    if u == d.vals {
      forall k | k in d.vals ensures UneditedApp(k, d.vals[k]) == d.vals[k] {
        assert u[k] == UneditedApp(k, d.vals[k]);
      }
    }
  }

  lemma LoggingFixedIff(d: Dict<Setting>)
    ensures (map k | k in d.vals :: UneditedLogging(k, d.vals[k])) == d.vals <==> LoggingSettled(d)
  {
    var u := map k | k in d.vals :: UneditedLogging(k, d.vals[k]);
    forall k | k in d.vals { UneditedLoggingFixed(k, d.vals[k]); }
    if u == d.vals {
      forall k | k in d.vals ensures UneditedLogging(k, d.vals[k]) == d.vals[k] {
        assert u[k] == UneditedLogging(k, d.vals[k]);
      }
    }
  }

  /** An unedited save changes nothing exactly when the record is settled. */
  lemma UneditedSaveFixedIff(st: SettingsState)
    ensures UneditedSave(st) == st <==> Settled(st)
  {
    AboutFixedIff(st.aboutInfo);
    AppFixedIff(st.appDefaults);
    LoggingFixedIff(st.loggingDefaults);
  }

  /** Saving without edits leaves the record as it was exactly when the record is settled. */
  lemma SaveWithoutEditsKeepsIff(st: SettingsState)
    requires st.Valid()
    ensures SaveAll(BuildFields(st), st) == (st, true) <==> Settled(st)
  {
    SaveWithoutEdits(st);
    UneditedSaveFixedIff(st);
  }

  lemma DefaultsSettled()
    ensures Settled(Defaults)
  {
    DefaultAboutSettled();
    DefaultAppSettled();
    DefaultLoggingSettled();
  }

  lemma DefaultAboutSettled()
    ensures AboutSettled(Defaults.aboutInfo)
  {
    var d := Defaults.aboutInfo.vals;
    assert IsStripped(d["name"]) && IsStripped(d["version"]);
    assert IsStripped(d["author"]) && IsStripped(d["website"]);
  }

  lemma DefaultAppSettled()
    ensures AppSettled(Defaults.appDefaults)
  {
    var d := Defaults.appDefaults.vals;
    assert IsStripped(d["screen_width"].s) && IsStripped(d["screen_height"].s);
    assert d["dark_mode"].s == Booleans[1];
  }

  lemma DefaultLoggingSettled()
    ensures LoggingSettled(Defaults.loggingDefaults)
  {
    var d := Defaults.loggingDefaults.vals;
    assert IsStripped(d["log_file"].s) && IsStripped(d["max_bytes"].s) && IsStripped(d["backup_count"].s);
    assert d["level"].s == Levels[1];
  }

  /** Opening the dialog on the shipped settings and saving at once changes nothing. */
  lemma DefaultsSurviveUneditedSave()
    ensures SaveAll(BuildFields(Defaults), Defaults) == (Defaults, true)
  {
    DefaultsValid();
    DefaultsSettled();
    SaveWithoutEditsKeepsIff(Defaults);
  }

  lemma UneditedSaveValid(st: SettingsState)
    requires st.Valid()
    ensures UneditedSave(st).Valid()
  {
  }

  /**
   * start_maximized "False" is a non-empty, so truthy, string: the drop-down
   * preselects "True" when the dialog opens, and the save writes the
   * drop-down's current text, so an unedited save turns it into "True".
   */
  lemma StartMaximizedFalseBecomesTrue(st: SettingsState)
    requires st.Valid()
    requires StartMaximized in st.appDefaults.vals && st.appDefaults.vals[StartMaximized] == Str("False")
    ensures var (saved, ok) := SaveAll(BuildFields(st), st);
      ok && StartMaximized in saved.appDefaults.vals && saved.appDefaults.vals[StartMaximized] == Str("True")
  {
    SaveWithoutEdits(st);
    assert UneditedSave(st).appDefaults.vals[StartMaximized] == UneditedApp(StartMaximized, Str("False"));
  }

  /**
   * One unedited save does not always settle the record: an empty
   * start_maximized is shown as "False", saved as "False", and only the
   * next save turns it into "True".
   */
  lemma StartMaximizedEmptyNeedsTwoSaves(st: SettingsState)
    requires st.Valid()
    requires StartMaximized in st.appDefaults.vals && st.appDefaults.vals[StartMaximized] == Str("")
    ensures var (s1, ok1) := SaveAll(BuildFields(st), st);
      && ok1 && StartMaximized in s1.appDefaults.vals
      && s1.appDefaults.vals[StartMaximized] == Str("False")
      && !Settled(s1)
      && var (s2, ok2) := SaveAll(BuildFields(s1), s1);
         ok2 && StartMaximized in s2.appDefaults.vals && s2.appDefaults.vals[StartMaximized] == Str("True")
  {
    SaveWithoutEdits(st);
    var s1 := UneditedSave(st);
    assert s1.appDefaults.vals[StartMaximized] == UneditedApp(StartMaximized, Str(""));
    assert !AppValueSettled(StartMaximized, s1.appDefaults.vals[StartMaximized]);
    UneditedSaveValid(st);
    StartMaximizedFalseBecomesTrue(s1);
  }

  /** dark_mode "True" or "False" survives an unedited save. */
  lemma DarkModeSurvivesUneditedSave(st: SettingsState)
    requires st.Valid()
    requires DarkMode in st.appDefaults.vals && st.appDefaults.vals[DarkMode] in [Str("True"), Str("False")]
    ensures var (saved, ok) := SaveAll(BuildFields(st), st);
      ok && DarkMode in saved.appDefaults.vals && saved.appDefaults.vals[DarkMode] == st.appDefaults.vals[DarkMode]
  {
    SaveWithoutEdits(st);
    var v := st.appDefaults.vals[DarkMode];
    assert UneditedSave(st).appDefaults.vals[DarkMode] == UneditedApp(DarkMode, v);
  }

  /**
   * After two unedited saves the record is settled, so every further
   * unedited save leaves it as it is; one save is not always enough
   * (StartMaximizedEmptyNeedsTwoSaves).
   */
  lemma TwoUneditedSavesSettle(st: SettingsState)
    requires st.Valid()
    ensures var (s1, ok1) := SaveAll(BuildFields(st), st);
      var (s2, ok2) := SaveAll(BuildFields(s1), s1);
      ok1 && ok2 && Settled(s2) && SaveAll(BuildFields(s2), s2) == (s2, true)
  {
    SaveWithoutEdits(st);
    var s1 := UneditedSave(st);
    UneditedSaveValid(st);
    SaveWithoutEdits(s1);
    var s2 := UneditedSave(s1);
    UneditedSaveValid(s1);
    assert AboutSettled(s2.aboutInfo) by {
      forall k | k in s2.aboutInfo.vals ensures AboutValueSettled(k, s2.aboutInfo.vals[k]) {
        assert s2.aboutInfo.vals[k] == UneditedAbout(k, s1.aboutInfo.vals[k]);
      }
    }
    assert AppSettled(s2.appDefaults) by {
      forall k | k in s2.appDefaults.vals { UneditedAppTwice(k, st.appDefaults.vals[k]); }
    }
    assert LoggingSettled(s2.loggingDefaults) by {
      forall k | k in s2.loggingDefaults.vals { UneditedLoggingTwice(k, st.loggingDefaults.vals[k]); }
    }
    SaveWithoutEditsKeepsIff(s2);
  }

  lemma UneditedAppTwice(k: string, v: Setting)
    ensures AppValueSettled(k, UneditedApp(k, UneditedApp(k, v)))
  {
    StripEmpty();
  }

  lemma UneditedLoggingTwice(k: string, v: Setting)
    ensures LoggingValueSettled(k, UneditedLogging(k, UneditedLogging(k, v)))
  {
    StripEmpty();
  }

  /** An icon file is taken only when one was chosen and it opens as a 256×256 image. */
  predicate IconAccepted(path: string, imageSize: Option<(int, int)>)
  {
    path != "" && imageSize == Some((256, 256))
  }

  // ---------------------------------------------------------------------
  // The dialog

  class SettingsDialog {
    const settings: AppSettings
    const settingsFile: SettingsFile
    var fields: map<FieldKey, Field>
    var closed: bool

    /** Opening the dialog: the four tabs register their fields. */
    constructor (settings: AppSettings, settingsFile: SettingsFile)
      requires settings.State().Valid()
      ensures this.settings == settings && this.settingsFile == settingsFile
      ensures fields == BuildFields(settings.State()) && !closed
    {
      this.settings := settings;
      this.settingsFile := settingsFile;
      fields := map[];
      closed := false;
      new;
      ghost var st := settings.State();
      AddAboutTab(AboutTab, settings.aboutInfo);
      assert fields == TabFields(AboutTab, st.aboutInfo.keys, AboutWidgets(st.aboutInfo)) by {
        assert forall m: map<FieldKey, Field> :: map[] + m == m;
      }
      AddModuleTab(ModulesTab, settings.modules);
      AddAppDefaultsTab(AppTab, settings.appDefaults);
      AddLoggingTab(LoggingTab, settings.loggingDefaults);
      assert settings.State() == st;
    }

    /** One line edit per key except the icon, which is shown as a picture. */
    method AddAboutTab(tab: string, d: Dict<string>)
      requires d.Valid()
      modifies this`fields
      ensures fields == old(fields) + TabFields(tab, d.keys, AboutWidgets(d))
    {
      var i := 0;
      while i < |d.keys|
        invariant 0 <= i <= |d.keys|
        invariant fields == old(fields) + TabFields(tab, d.keys[..i], AboutWidgets(d))
      {
        var key := d.keys[i];
        TabFieldsExtend(old(fields), tab, d.keys, i, AboutWidgets(d));
        if key != IconKey {
          fields := fields[FieldKey(tab, key) := LineEdit(d.vals[key])];
        }
        i := i + 1;
      }
      assert d.keys[..i] == d.keys;
    }

    /** One check box per module, checked by its flag. */
    method AddModuleTab(tab: string, d: Dict<bool>)
      requires d.Valid()
      modifies this`fields
      ensures fields == old(fields) + TabFields(tab, d.keys, ModuleWidgets(d))
    {
      var i := 0;
      while i < |d.keys|
        invariant 0 <= i <= |d.keys|
        invariant fields == old(fields) + TabFields(tab, d.keys[..i], ModuleWidgets(d))
      {
        var key := d.keys[i];
        TabFieldsExtend(old(fields), tab, d.keys, i, ModuleWidgets(d));
        fields := fields[FieldKey(tab, key) := CheckBox(Capitalize(key), d.vals[key])];
        i := i + 1;
      }
      assert d.keys[..i] == d.keys;
    }

    /** A drop-down for start_maximized, a check box for dark_mode and booleans, a line edit otherwise. */
    method AddAppDefaultsTab(tab: string, d: Dict<Setting>)
      requires d.Valid()
      modifies this`fields
      ensures fields == old(fields) + TabFields(tab, d.keys, AppWidgets(d))
    {
      var i := 0;
      while i < |d.keys|
        invariant 0 <= i <= |d.keys|
        invariant fields == old(fields) + TabFields(tab, d.keys[..i], AppWidgets(d))
      {
        var key := d.keys[i];
        TabFieldsExtend(old(fields), tab, d.keys, i, AppWidgets(d));
        fields := fields[FieldKey(tab, key) := AppWidget(key, d.vals[key])];
        i := i + 1;
      }
      assert d.keys[..i] == d.keys;
    }

    /** A drop-down of the five levels for level, a check box for booleans, a line edit otherwise. */
    method AddLoggingTab(tab: string, d: Dict<Setting>)
      requires d.Valid()
      modifies this`fields
      ensures fields == old(fields) + TabFields(tab, d.keys, LoggingWidgets(d))
    {
      var i := 0;
      while i < |d.keys|
        invariant 0 <= i <= |d.keys|
        invariant fields == old(fields) + TabFields(tab, d.keys[..i], LoggingWidgets(d))
      {
        var key := d.keys[i];
        TabFieldsExtend(old(fields), tab, d.keys, i, LoggingWidgets(d));
        fields := fields[FieldKey(tab, key) := LoggingWidget(key, d.vals[key])];
        i := i + 1;
      }
      assert d.keys[..i] == d.keys;
    }

    /** The user edits a field: its widget is replaced and nothing else changes. */
    method EditField(fk: FieldKey, f: Field)
      requires fk in fields
      modifies this`fields
      ensures fields == old(fields)[fk := f]
      ensures fields.Keys == old(fields).Keys
    {
      fields := fields[fk := f];
    }

    /** Double-clicking the icon: the path is stored only for a 256×256 image. */
    method ChangeIcon(path: string, imageSize: Option<(int, int)>) returns (accepted: bool)
      requires settings.aboutInfo.Valid()
      modifies settings
      ensures accepted == IconAccepted(path, imageSize)
      ensures settings.aboutInfo ==
        if accepted then Put(old(settings.aboutInfo), IconKey, path) else old(settings.aboutInfo)
      ensures settings.modules == old(settings.modules)
      ensures settings.appDefaults == old(settings.appDefaults)
      ensures settings.loggingDefaults == old(settings.loggingDefaults)
    {
      accepted := false;
      if path != "" {
        if imageSize == Some((256, 256)) {
          settings.aboutInfo := Put(settings.aboutInfo, IconKey, path);
          accepted := true;
        }
      }
    }

    /**
     * Save: the four dictionaries are rewritten in turn from the fields; an
     * exception stops the rest. Only when all four loops finish is the
     * settings file written and the dialog closed.
     */
    method SaveSettings() returns (ok: bool)
      requires settings.State().Valid()
      modifies settings, settingsFile, this`closed
      ensures (settings.State(), ok) == SaveAll(fields, old(settings.State()))
      ensures settings.State().Valid()
      ensures ok ==> settingsFile.contents == Some(settings.State()) && closed
      ensures !ok ==> settingsFile.contents == old(settingsFile.contents) && closed == old(closed)
    {
      ok := SaveAboutInfo();
      if !ok { return; }
      ok := SaveModules();
      if !ok { return; }
      ok := SaveAppDefaults();
      if !ok { return; }
      ok := SaveLoggingDefaults();
      if !ok { return; }
      settingsFile.contents := Some(settings.State());
      closed := true;
    }

    /** The aboutInfo loop of save_settings. */
    method SaveAboutInfo() returns (ok: bool)
      requires settings.aboutInfo.Valid()
      modifies settings`aboutInfo
      ensures (settings.aboutInfo, ok) == SaveDict(old(settings.aboutInfo), AboutUpdates(fields, old(settings.aboutInfo)))
      ensures settings.aboutInfo.Valid()
    {
      ghost var d := settings.aboutInfo;
      ghost var updates := AboutUpdates(fields, d);
      var keys := settings.aboutInfo.keys;
      var i := 0;
      while i < |keys|
        invariant 0 <= i <= |keys|
        invariant settings.aboutInfo.keys == keys && settings.aboutInfo.vals.Keys == d.vals.Keys
        invariant ApplyInOrder(keys[i..], settings.aboutInfo.vals, updates) == ApplyInOrder(keys, d.vals, updates)
      {
        var key := keys[i];
        ApplyInOrderStep(keys, i, settings.aboutInfo.vals, updates);
        if key != IconKey {
          var v := AboutValue(fields, key);
          assert key in d.vals && updates[key] == v;
          if v.None? {
            return false;
          }
          settings.aboutInfo := Dict(keys, settings.aboutInfo.vals[key := v.value]);
        } else {
          assert key !in updates;
        }
        i := i + 1;
      }
      assert keys[i..] == [];
      return true;
    }

    /** The modules loop of save_settings. */
    method SaveModules() returns (ok: bool)
      requires settings.modules.Valid()
      modifies settings`modules
      ensures (settings.modules, ok) == SaveDict(old(settings.modules), ModuleUpdates(fields, old(settings.modules)))
      ensures settings.modules.Valid()
    {
      ghost var d := settings.modules;
      ghost var updates := ModuleUpdates(fields, d);
      var keys := settings.modules.keys;
      var i := 0;
      while i < |keys|
        invariant 0 <= i <= |keys|
        invariant settings.modules.keys == keys && settings.modules.vals.Keys == d.vals.Keys
        invariant ApplyInOrder(keys[i..], settings.modules.vals, updates) == ApplyInOrder(keys, d.vals, updates)
      {
        var key := keys[i];
        ApplyInOrderStep(keys, i, settings.modules.vals, updates);
        var v := ModuleValue(fields, key);
        if v.None? {
          return false;
        }
        settings.modules := Dict(keys, settings.modules.vals[key := v.value]);
        i := i + 1;
      }
      assert keys[i..] == [];
      return true;
    }

    /** The appDefaults loop of save_settings. */
    method SaveAppDefaults() returns (ok: bool)
      requires settings.appDefaults.Valid()
      modifies settings`appDefaults
      ensures (settings.appDefaults, ok) == SaveDict(old(settings.appDefaults), AppUpdates(fields, old(settings.appDefaults)))
      ensures settings.appDefaults.Valid()
    {
      ghost var d := settings.appDefaults;
      ghost var updates := AppUpdates(fields, d);
      var keys := settings.appDefaults.keys;
      var i := 0;
      while i < |keys|
        invariant 0 <= i <= |keys|
        invariant settings.appDefaults.keys == keys && settings.appDefaults.vals.Keys == d.vals.Keys
        invariant ApplyInOrder(keys[i..], settings.appDefaults.vals, updates) == ApplyInOrder(keys, d.vals, updates)
      {
        var key := keys[i];
        ApplyInOrderStep(keys, i, settings.appDefaults.vals, updates);
        var v := AppValue(fields, key);
        if v.None? {
          return false;
        }
        settings.appDefaults := Dict(keys, settings.appDefaults.vals[key := v.value]);
        i := i + 1;
      }
      assert keys[i..] == [];
      return true;
    }

    /** The loggingDefaults loop of save_settings. */
    method SaveLoggingDefaults() returns (ok: bool)
      requires settings.loggingDefaults.Valid()
      modifies settings`loggingDefaults
      ensures (settings.loggingDefaults, ok) == SaveDict(old(settings.loggingDefaults), LoggingUpdates(fields, old(settings.loggingDefaults)))
      ensures settings.loggingDefaults.Valid()
    {
      ghost var d := settings.loggingDefaults;
      ghost var updates := LoggingUpdates(fields, d);
      var keys := settings.loggingDefaults.keys;
      var i := 0;
      while i < |keys|
        invariant 0 <= i <= |keys|
        invariant settings.loggingDefaults.keys == keys && settings.loggingDefaults.vals.Keys == d.vals.Keys
        invariant ApplyInOrder(keys[i..], settings.loggingDefaults.vals, updates) == ApplyInOrder(keys, d.vals, updates)
      {
        var key := keys[i];
        ApplyInOrderStep(keys, i, settings.loggingDefaults.vals, updates);
        var v := LoggingValue(fields, key);
        if v.None? {
          return false;
        }
        settings.loggingDefaults := Dict(keys, settings.loggingDefaults.vals[key := v.value]);
        i := i + 1;
      }
      assert keys[i..] == [];
      return true;
    }
  }
}
