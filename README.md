# PyQt6ify Pro — configuration, themes and the settings dialog, in Dafny

PyQt6ify Pro is a PyQt6 application scaffold. Most of it is Qt wiring. Three
parts hold data logic, and this project models those three and proves what
they promise:

- **The configuration store** (`Config` in config/app_config.py), in
  `app_config.dfy`. It holds an ini document of sections and string options,
  plus two records fixed at construction: the about details and the module
  switches. The ini file is an `IniFile` object that either holds a document
  or is absent. On first run only the `APP` section is seeded. Lookups are
  defensive: an unknown about key gives `"Unknown"`, an unknown module is
  off, and a missing section or option gives the caller's fallback.
- **Theme application** (`apply_theme` in modules/themes.py), in
  `themes.dfy`. A theme file is `Empty`, `Malformed` (not JSON) or an
  `Object` of string values. Validation runs in a fixed order: empty file,
  then parse, then the seven required keys. All missing keys are reported
  together, in the fixed order. A valid theme gives a four-role palette and
  the stylesheet text, with the eight rules in source order and formatting.
- **The settings dialog** (`SettingsDialog` in config/settings_dialog.py),
  in `settings.dfy` and `settings_dialog.dfy`.
  - The settings record of config/settings.py is an `AppSettings` object
    holding four insertion-ordered dictionaries.
  - The dialog is a class whose `fields` map is filled tab by tab in loops.
    The widget kind is chosen by key name and value type.
  - Saving rewrites the four dictionaries in place, one loop each. The first
    exception stops the save and there is no rollback. Only a save that
    finishes writes the settings file and closes the dialog.
  - `ChangeIcon` updates the icon path only for a 256×256 image.
  - Widgets are reduced to what the save reads from them: a line edit's
    text, a check box's caption and state, and a drop-down's entries and
    selected index.

`strings.dfy` holds the Python string operations these use: `str.strip`
over the full `str.isspace` set, `str.capitalize`, `str.join` and substring
containment. `wrappers.dfy` holds `Option` and `Result`.

Python exceptions that the code catches become explicit values. Examples
are a `KeyError` on a missing field, or an `AttributeError` when `text()` is
called on a drop-down.

Some facts about the code that the model keeps:
- The default ini file has only an `APP` section, with no `LOGGING` section.
- Saving settings is not transactional: dictionaries already rewritten stay
  rewritten when a later one fails.
- `Config`'s getters return the stored string or the caller's fallback,
  with no conversion to other types. Nothing in the configuration store
  derives logging settings.
- The about details and module switches inside `Config` are its own
  constants. They are separate from the dictionaries of config/settings.py
  that the dialog edits.

## Model

| member | source | states |
|---|---|---|
| AppConfig.Merge | config/app_config.py:45-53 | Reading the ini file into the parser keeps every held section and adds the file's. In a section both hold, the file's options win and the others stay. |
| AppConfig.InitialDocument | config/app_config.py:40-43 | The document a new Config starts from: the default `APP` section when the file is absent, and the file's document otherwise. |
| AppConfig.Config.constructor | config/app_config.py:6-43 | The about and module records are the fixed defaults. An absent file is created holding the default `APP` section, and that becomes the document. An existing file's document is adopted unchanged, and the file is left as it was. |
| AppConfig.Config.LoadConfig | config/app_config.py:45-53 | The document becomes the held document merged with the file's. An absent file leaves it unchanged. |
| AppConfig.Config.CreateDefaultConfig | config/app_config.py:55-69 | `APP` becomes exactly start_maximized "True", screen_width "800", screen_height "600". No other section is added or changed, and the file then holds the document. |
| AppConfig.Config.Get | config/app_config.py:99-114 | Gives the stored string when the section and option both exist, and exactly the fallback otherwise. It never fails. |
| AppConfig.Config.GetAppSetting | config/app_config.py:80-88 | Equals `Get` on the `APP` section with the same option and fallback. |
| AppConfig.Config.GetAboutInfo | config/app_config.py:71-78 | Gives the stored value for a known key and "Unknown" for any other. |
| AppConfig.Config.IsModuleEnabled | config/app_config.py:90-97 | A module is on exactly when it is listed and its flag is true. An unknown name is off. |
| AppConfig.FirstRunSeedsOnlyApp | config/app_config.py:55-64 | A first run leaves exactly one section, `APP`, with the three window options. In particular there is no `LOGGING` section. |
| AppConfig.LoadAdoptsDocument | config/app_config.py:40-50 | Reading an existing file into a fresh parser yields that file's document unchanged. |
| AppConfig.MergeSelf | config/app_config.py:40-50 | Reading back the file just written from the held document changes nothing. |
| AppConfig.LoadIdempotent | config/app_config.py:45-53 | Loading the same file twice gives the same document as loading it once. |
| AppConfig.FreshScreenWidth | config/app_config.py:40-64 | After a first run, `get_app_setting("screen_width", x)` is "800" for every fallback x. |
| AppConfig.DefaultModulesEnabled | config/app_config.py:24-31 | All five default modules are enabled, and every other name is disabled. |
| Themes.Missing | modules/themes.py:38 | The result holds exactly the names absent from the data, in their order among the required names. |
| Themes.Validate | modules/themes.py:23-40 | Success exactly for an object holding all seven required keys. An empty file is rejected before parsing, and malformed JSON before the key check. A missing-fields error lists exactly the absent required names, in the fixed order, and is never empty. |
| Themes.MakePalette | modules/themes.py:43-47 | Exactly four roles are set: Window, WindowText, Button and ButtonText, from window_background, window_text, button_background and button_text. |
| Themes.ApplyTheme | modules/themes.py:18-84 | The theme is applied exactly when validation succeeds. It is then exactly the palette of MakePalette and the stylesheet of Stylesheet, both built from the parsed object. A failure carries validation's error, and then neither the palette nor the stylesheet is produced. |
| Themes.AppliedThemeCarriesValues | modules/themes.py:43-84 | An applied theme sets exactly the four palette roles from their four fields, and its stylesheet contains every one of the seven required values verbatim. |
| Themes.Stylesheet | modules/themes.py:51-83 | The stylesheet text: a newline, then the eight rules (QMenuBar, QMenuBar::item, QMenuBar::item:selected, QMenu, QMenu::item:selected, QToolBar, QMessageBox, QPushButton) laid out as in the f-string, then the closing indentation. |
| Themes.RenderRules | modules/themes.py:52-82 | Each rule is rendered as its selector, an opening brace, one `property: value;` line per declaration, and a closing brace, in table order. |
| Themes.FailureMessage | modules/themes.py:92-100 | The text of the error box for each failure: an empty file, invalid JSON, or the missing fields joined by ", ". |
| Themes.StyleRulesUseOnlyRequired | modules/themes.py:51-83 | Every value the stylesheet substitutes is one of the seven required fields. |
| Themes.StyleRulesUseRequiredFields | modules/themes.py:51-83 | A validated theme supplies every field the stylesheet needs. |
| Themes.ValidIffComplete | modules/themes.py:32-39 | An object validates if and only if all seven required keys are present. Any other keys make no difference. |
| Themes.MissingMessageNamesAll | modules/themes.py:38-40 | For any absent required key, the one error message names it. |
| Themes.DeclsShowValue | modules/themes.py:51-83 | Each declaration's value appears verbatim in the rendered rule body. |
| Themes.RulesShowValue | modules/themes.py:51-83 | Each declaration's value appears verbatim in the rendered rule list. |
| Themes.StylesheetShowsRequiredValues | modules/themes.py:51-83 | Every one of the seven required values appears verbatim in the stylesheet. |
| Themes.DeclsDependOnFieldsOnly | modules/themes.py:51-83 | A rule body depends only on the values of the fields it names. |
| Themes.RulesDependOnFieldsOnly | modules/themes.py:51-83 | The rule list depends only on the values of the fields it names. |
| Themes.PaletteUsesRequiredOnly | modules/themes.py:43-47 | Two themes that agree on the required fields get the same palette. |
| Themes.StylesheetUsesRequiredOnly | modules/themes.py:51-83 | Two themes that agree on the required fields get the same stylesheet. |
| Themes.ExtraKeysIgnored | modules/themes.py:32-84 | Two objects that agree on the required fields give the same outcome, error or theme. |
| Themes.MissingDependsOnNamesOnly | modules/themes.py:38 | The missing list depends only on which required names are present. |
| Themes.HighlightOnlyWhenSelected | modules/themes.py:60-74 | highlight_color is used only in the `QMenuBar::item:selected` and `QMenu::item:selected` rules, and `QToolBar` takes menu_background. |
| Strings.StripLeading | config/settings_dialog.py:183 | Removes exactly the leading run of white space: what is removed is all white space, and what is left does not start with it. |
| Strings.StripTrailing | config/settings_dialog.py:183 | Removes exactly the trailing run of white space, symmetrically to StripLeading. |
| Strings.Strip | config/settings_dialog.py:183 | The result is a slice of the input with nothing but white space before and after it, and it has no white space at either end. |
| Strings.StripUnique | config/settings_dialog.py:183 | Any slice without white space at its ends, and with only white space around it, is the stripped string. So Strip is exactly Python's strip. |
| Strings.IsSpace | config/settings_dialog.py:183 | The characters `str.isspace` accepts: ASCII tab to carriage return, the four separators 0x1C-0x1F, space, and the Unicode spaces and line and paragraph separators. |
| Strings.LowerAll | config/settings_dialog.py:106 | Lower-cases every ASCII letter and keeps the length. |
| Strings.StrippedUnchanged | config/settings_dialog.py:183 | Stripping a string without white space at either end gives it back. |
| Strings.StripIdempotent | config/settings_dialog.py:183 | Stripping twice is stripping once. |
| Strings.Capitalize | config/settings_dialog.py:106 | The caption keeps the key's length. Its first character is upper-cased and every later character lower-cased. |
| Strings.JoinContainsParts | modules/themes.py:40 | Every joined part occurs in the joined text. |
| Strings.Join | modules/themes.py:40 | The parts with the separator between consecutive parts: empty for no parts, and otherwise it begins with the first part and ends with the last. |
| Settings.Put | config/settings_dialog.py:80 | Assigning a key keeps the dictionary well formed and sets that value. An existing key keeps its place, and a new key goes last. |
| Settings.AppSettings.constructor | config/settings.py:1-4 | The module state holds the four given dictionaries. |
| Settings.DefaultsValid | config/settings.py:1-4 | The shipped dictionaries have distinct keys matching their values. |
| SettingsDialog.Select | config/settings_dialog.py:124-126 | A drop-down after setCurrentText shows the requested entry when it is listed, and otherwise stays on the first entry. |
| SettingsDialog.IndexOf | config/settings_dialog.py:126 | Finds the first position of a listed entry. |
| SettingsDialog.AppWidget | config/settings_dialog.py:123-134 | The App Defaults widget: a True/False drop-down for start_maximized, an "Enable Dark Mode" check box for dark_mode, an uncaptioned check box for a bool, and otherwise a line edit. |
| SettingsDialog.LoggingWidget | config/settings_dialog.py:148-156 | The Logging Settings widget: the five-level drop-down for level, an uncaptioned check box for a bool, and otherwise a line edit. |
| SettingsDialog.TabFields | config/settings_dialog.py:45-159 | The fields one tab builder registers, key by key in dictionary order, under (tab title, key). |
| SettingsDialog.BuildFields | config/settings_dialog.py:22-26 | The fields of the four tabs together, as the constructor builds them. |
| SettingsDialog.AboutValue | config/settings_dialog.py:183 | What the about loop writes for a key: the field's stripped text. A missing field or a widget without text raises. |
| SettingsDialog.ModuleValue | config/settings_dialog.py:186 | What the modules loop writes for a key: the check box state. A missing field or another widget raises. |
| SettingsDialog.AppValue | config/settings_dialog.py:189-195 | What the app loop writes for a key: dark_mode from the check box state, a drop-down's current text, and otherwise stripped text. A missing field or a wrong widget raises. |
| SettingsDialog.LoggingValue | config/settings_dialog.py:198-205 | What the logging loop writes for a key: level's current text, another drop-down's text compared with "True", and otherwise stripped text. |
| SettingsDialog.ApplyInOrder | config/settings_dialog.py:181-205 | One loop: the keys in dictionary order, each written in place, stopping at the first update that raises. |
| SettingsDialog.SaveDict | config/settings_dialog.py:181-205 | One dictionary after its loop, keeping its key order, with whether the loop finished. |
| SettingsDialog.SaveAll | config/settings_dialog.py:180-212 | The four loops in turn, where an exception ends the save and leaves the earlier writes in place. |
| SettingsDialog.IconAccepted | config/settings_dialog.py:70-80 | The icon is taken only when a path was chosen and the image is exactly 256×256. |
| SettingsDialog.TabFieldsExtend | config/settings_dialog.py:45-58 | Registering one more key adds exactly that key's field, or nothing for a key without a widget. |
| SettingsDialog.TabFieldsAt | config/settings_dialog.py:45-159 | A tab's fields are keyed by (tab title, key) for exactly its keys that have a widget, and hold that widget. |
| SettingsDialog.BuiltFieldAt | config/settings_dialog.py:22-26 | A fresh dialog has a field exactly for each key of the four dictionaries, under its tab title, except the icon. The widget kind follows the key and its value. |
| SettingsDialog.AboutFieldBuilt | config/settings_dialog.py:45-59 | Each non-icon about entry is a line edit showing its value. |
| SettingsDialog.ModuleFieldBuilt | config/settings_dialog.py:105-108 | Each module is a check box captioned with the capitalised key and checked by its flag. |
| SettingsDialog.AppFieldBuilt | config/settings_dialog.py:122-136 | Each app default gets the widget its key and value call for. |
| SettingsDialog.LoggingFieldBuilt | config/settings_dialog.py:147-158 | Each logging default gets the widget its key and value call for. |
| SettingsDialog.LevelFieldChoices | config/settings_dialog.py:148-151 | The level drop-down offers exactly DEBUG, INFO, WARNING, ERROR and CRITICAL. It selects the stored level, or DEBUG when the stored level is not one of them. |
| SettingsDialog.AppFlagFields | config/settings_dialog.py:123-129 | The start_maximized drop-down shows "True" exactly when the stored value is truthy. dark_mode is checked exactly when the stored value is the string "True". |
| SettingsDialog.ApplyInOrderStep | config/settings_dialog.py:181-205 | One loop step: a skipped key changes nothing, a raising update stops the loop, and any other update writes its value. |
| SettingsDialog.ApplyInOrderWritesAll | config/settings_dialog.py:181-205 | A loop finishes exactly when no update on the way raises. It then holds every update and leaves every other entry alone. |
| SettingsDialog.ApplyInOrderStopsAtFailure | config/settings_dialog.py:180-212 | With no rollback, a failing loop keeps exactly the writes before the first raising key and makes none from it on. |
| SettingsDialog.ApplyInOrderKeepsKeys | config/settings_dialog.py:181-205 | A loop that writes only existing keys keeps exactly the dictionary's keys, whether it finishes or not. |
| SettingsDialog.SaveDictValid | config/settings_dialog.py:181-205 | After its loop, finished or not, each dictionary is still well formed. |
| SettingsDialog.SaveAllValid | config/settings_dialog.py:180-212 | A save, finished or stopped by an exception, leaves a well-formed record, so Save can be pressed again. |
| SettingsDialog.SaveKeepsIcon | config/settings_dialog.py:181-183 | A save, finished or interrupted, never changes the icon path. |
| SettingsDialog.SaveDictWritesAll | config/settings_dialog.py:181-205 | A loop in which every update succeeds writes exactly the expected values. |
| SettingsDialog.UneditedAboutSave | config/settings_dialog.py:181-183 | Saving unedited about fields writes each non-icon text back stripped and keeps the icon. |
| SettingsDialog.UneditedModulesSave | config/settings_dialog.py:185-186 | Saving unedited module check boxes gives back the same flags. |
| SettingsDialog.UneditedAppSave | config/settings_dialog.py:188-195 | For unedited app fields: start_maximized becomes "True" or "False" by truthiness, dark_mode "True" or "False" by equality with "True", a bool becomes "", and other text is stripped. |
| SettingsDialog.UneditedLoggingSave | config/settings_dialog.py:197-205 | For unedited logging fields: level becomes the selected level (DEBUG when the stored level is not listed), a bool becomes "", and other text is stripped. |
| SettingsDialog.BuiltFieldsShowRecord | config/settings_dialog.py:22-26 | A fresh dialog's fields show every entry of the record it was opened on. |
| SettingsDialog.SaveWithoutEdits | config/settings_dialog.py:178-205 | Opening the dialog and saving at once always succeeds, and writes exactly the record of the four Unedited lemmas. |
| SettingsDialog.AppWidgetSaved | config/settings_dialog.py:188-195 | Saving reads back from an untouched app widget exactly the value the unedited-save rule gives for its key and stored value. |
| SettingsDialog.LoggingWidgetSaved | config/settings_dialog.py:197-205 | Saving reads back from an untouched logging widget exactly the value the unedited-save rule gives for its key and stored value. |
| SettingsDialog.UneditedAboutFixed | config/settings_dialog.py:181-183 | An unedited save leaves an about value as it is if and only if it is the icon or has no surrounding white space. |
| SettingsDialog.UneditedAppFixed | config/settings_dialog.py:188-195 | An unedited save leaves an app value as it is if and only if the value is settled. |
| SettingsDialog.UneditedLoggingFixed | config/settings_dialog.py:197-205 | An unedited save leaves a logging value as it is if and only if the value is settled. |
| SettingsDialog.AboutFixedIff | config/settings_dialog.py:181-183 | An unedited save leaves about_info as it is if and only if every non-icon text is stripped. |
| SettingsDialog.AppFixedIff | config/settings_dialog.py:188-195 | An unedited save leaves app_defaults as it is if and only if every value is settled. |
| SettingsDialog.LoggingFixedIff | config/settings_dialog.py:197-205 | An unedited save leaves logging_defaults as it is if and only if every value is settled. |
| SettingsDialog.UneditedSaveFixedIff | config/settings_dialog.py:178-205 | An unedited save leaves the record as it is if and only if the record is settled. Settled means: stripped texts, start_maximized "True", dark_mode "True" or "False", a listed level, and no bools among the app or logging values. |
| SettingsDialog.SaveWithoutEditsKeepsIff | config/settings_dialog.py:178-205 | Opening the dialog and saving at once leaves the record unchanged exactly when it is settled. |
| SettingsDialog.DefaultsSettled | config/settings.py:1-4 | The shipped record is settled. |
| SettingsDialog.DefaultAboutSettled | config/settings.py:1 | The shipped about texts have no surrounding white space. |
| SettingsDialog.DefaultAppSettled | config/settings.py:3 | The shipped app defaults are settled. |
| SettingsDialog.DefaultLoggingSettled | config/settings.py:4 | The shipped logging defaults are settled. |
| SettingsDialog.DefaultsSurviveUneditedSave | config/settings.py:1-4 | Opening the dialog on the shipped settings and saving at once changes nothing. |
| SettingsDialog.UneditedSaveValid | config/settings_dialog.py:178-205 | An unedited save keeps every dictionary well formed. |
| SettingsDialog.StartMaximizedFalseBecomesTrue | config/settings_dialog.py:123-126 | start_maximized "False" does not round-trip: an unedited save writes "True". |
| SettingsDialog.StartMaximizedEmptyNeedsTwoSaves | config/settings_dialog.py:123-126 | An empty start_maximized is saved as "False" by the first unedited save, which leaves the record unsettled. The second unedited save then finishes and makes it "True". |
| SettingsDialog.DarkModeSurvivesUneditedSave | config/settings_dialog.py:127-129 | dark_mode "True" or "False" survives an unedited save. |
| SettingsDialog.TwoUneditedSavesSettle | config/settings_dialog.py:178-205 | After two unedited saves the record is settled, so every further unedited save changes nothing. StartMaximizedEmptyNeedsTwoSaves shows that one save is not always enough. |
| SettingsDialog.UneditedAppTwice | config/settings_dialog.py:188-195 | Two unedited saves make any app value settled. |
| SettingsDialog.UneditedLoggingTwice | config/settings_dialog.py:197-205 | Two unedited saves make any logging value settled. |
| SettingsDialog.SettingsDialog.constructor | config/settings_dialog.py:11-26 | Opening the dialog registers exactly the fields the four tab builders make for the current record, and the dialog is open. |
| SettingsDialog.SettingsDialog.AddAboutTab | config/settings_dialog.py:40-62 | Adds one line edit per about key in order, skipping the icon. |
| SettingsDialog.SettingsDialog.AddModuleTab | config/settings_dialog.py:99-114 | Adds one check box per module. |
| SettingsDialog.SettingsDialog.AddAppDefaultsTab | config/settings_dialog.py:116-140 | Adds one widget per app default, chosen by key and value. |
| SettingsDialog.SettingsDialog.AddLoggingTab | config/settings_dialog.py:142-162 | Adds one widget per logging default, chosen by key and value. |
| SettingsDialog.SettingsDialog.EditField | config/settings_dialog.py:57-58 | A user's edit replaces the widget state of one registered field and leaves every other field and the set of fields as they were. Only a later Save reads it. |
| SettingsDialog.SettingsDialog.ChangeIcon | config/settings_dialog.py:64-84 | The icon path is set only when a file was chosen and its image is exactly 256×256. Otherwise the record is unchanged, and the other three dictionaries never change. |
| SettingsDialog.SettingsDialog.SaveSettings | config/settings_dialog.py:178-212 | The record becomes what the four loops write, stopping at the first exception, and stays well formed. The settings file is written and the dialog closed only when all four finish. |
| SettingsDialog.SettingsDialog.SaveAboutInfo | config/settings_dialog.py:181-183 | The about loop: every non-icon key in order, stopping at the first exception. The dictionary stays well formed. |
| SettingsDialog.SettingsDialog.SaveModules | config/settings_dialog.py:185-186 | The modules loop: each flag from its check box, stopping at the first exception. The dictionary stays well formed. |
| SettingsDialog.SettingsDialog.SaveAppDefaults | config/settings_dialog.py:188-195 | The app defaults loop, stopping at the first exception. The dictionary stays well formed. |
| SettingsDialog.SettingsDialog.SaveLoggingDefaults | config/settings_dialog.py:197-205 | The logging defaults loop, stopping at the first exception. The dictionary stays well formed. |

## Left out

- Qt widgets, layouts, message boxes, pixmaps and the dialog's window handling are not modelled. Widgets appear only as the values the save reads from them.
- Python's `repr` format of the written settings file (`save_to_file`) is not modelled: the file is a `SettingsFile` holding the record it was written with. A failure while writing it is not modelled either.
- Parts of the ini format are not modelled: its text form, option-name case folding, the `DEFAULT` section and interpolation. The document is an abstract map.
- A read error in `load_config` and a write error in `create_default_config` are not modelled. Both are only logged.
- Creating the config directory and the logging calls are not modelled.
- AppConfig.Config.Get: only string fallbacks are modelled, although main.py passes integers as fallbacks. A stored option is always a string.
- Themes.Validate: a JSON document that parses to something other than an object, and non-string values, are not modelled. The parsed theme is a map of strings.
- Themes.ApplyTheme: a theme file that does not exist is not modelled. Neither is `os.path.normpath` on the path, nor QColor's reading of colour strings, which are passed through as opaque text.
- SettingsDialog.SettingsDialog.ChangeIcon: the file dialog and image decoding are parameters, namely the chosen path and the image size, or None when the image does not open.
- Strings.Capitalize: only ASCII letters change case. Python's full Unicode case mapping is not modelled.
- `format_elapsed_time` (floating-point formatting), database.py (an sqlite3 connection), the demo `main` in modules/themes.py and the start-up code in main.py are not part of this model.
- modules/menu.py, toolbar.py, status_bar.py and about.py are presentation wiring only and are not part of this model.
