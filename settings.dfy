/**
 * The settings record the settings dialog edits (config/settings.py): four
 * insertion-ordered dictionaries held as module-level state and updated in
 * place. Values of app_defaults and logging_defaults are strings in the
 * shipped file, but the dialog also handles booleans there, so both kinds
 * are kept.
 */
module Settings {
  import opened Wrappers

  /** A value of app_defaults or logging_defaults: a Python str or a Python bool. */
  datatype Setting = Str(s: string) | Flag(b: bool)

  /**
   * A Python dict with string keys: the keys in insertion order and the
   * value of each.
   */
  datatype Dict<V> = Dict(keys: seq<string>, vals: map<string, V>)
  {
    predicate Valid()
    {
      && (forall i, j :: 0 <= i < j < |keys| ==> keys[i] != keys[j])
      && vals.Keys == set k | k in keys
    }
  }

  /** d[k] = v: an existing key keeps its place, a new key goes last. */
  function Put<V>(d: Dict<V>, k: string, v: V): (r: Dict<V>)
    requires d.Valid()
    ensures r.Valid()
    ensures r.vals == d.vals[k := v]
    ensures k in d.vals ==> r.keys == d.keys
    ensures k !in d.vals ==> r.keys == d.keys + [k]
  {
    if k in d.vals then Dict(d.keys, d.vals[k := v])
    else Dict(d.keys + [k], d.vals[k := v])
  }

  /** The four dictionaries of the settings record. */
  datatype SettingsState = SettingsState(
    aboutInfo: Dict<string>,
    modules: Dict<bool>,
    appDefaults: Dict<Setting>,
    loggingDefaults: Dict<Setting>)
  {
    predicate Valid()
    {
      aboutInfo.Valid() && modules.Valid() && appDefaults.Valid() && loggingDefaults.Valid()
    }
  }

  /** The record as shipped. */
  const Defaults := SettingsState(
    Dict(["name", "version", "author", "website", "icon"],
         map["name" := "PyQt6ify Pro", "version" := "1.0", "author" := "Your Name",
             "website" := "https://www.yourwebsite.com", "icon" := "resources/icons/app_icon.png"]),
    Dict(["logging", "database", "menu", "toolbar", "status_bar"],
         map["logging" := true, "database" := true, "menu" := true, "toolbar" := true, "status_bar" := true]),
    Dict(["start_maximized", "screen_width", "screen_height", "dark_mode"],
         map["start_maximized" := Str("True"), "screen_width" := Str("800"),
             "screen_height" := Str("600"), "dark_mode" := Str("False")]),
    Dict(["log_file", "max_bytes", "backup_count", "level"],
         map["log_file" := Str("logs/app.log"), "max_bytes" := Str("5242880"),
             "backup_count" := Str("3"), "level" := Str("INFO")]))

  /** The settings module's state: the four dictionaries, each replaced as it is edited. */
  class AppSettings {
    var aboutInfo: Dict<string>
    var modules: Dict<bool>
    var appDefaults: Dict<Setting>
    var loggingDefaults: Dict<Setting>

    constructor (st: SettingsState)
      ensures State() == st
    {
      aboutInfo, modules := st.aboutInfo, st.modules;
      appDefaults, loggingDefaults := st.appDefaults, st.loggingDefaults;
    }

    function State(): SettingsState
      reads this
    {
      SettingsState(aboutInfo, modules, appDefaults, loggingDefaults)
    }
  }

  /** The file config/settings.py: the record it was last written with, if any. */
  class SettingsFile {
    var contents: Option<SettingsState>

    constructor (contents: Option<SettingsState>)
      ensures this.contents == contents
    {
      this.contents := contents;
    }
  }

  lemma DefaultsValid()
    ensures Defaults.Valid()
  {
    DefaultAboutValid();
    DefaultModulesValid();
    DefaultAppValid();
    DefaultLoggingValid();
  }

  lemma DefaultAboutValid() ensures Defaults.aboutInfo.Valid() {}
  lemma DefaultModulesValid() ensures Defaults.modules.Valid() {}
  lemma DefaultAppValid() ensures Defaults.appDefaults.Valid() {}
  lemma DefaultLoggingValid() ensures Defaults.loggingDefaults.Valid() {}
}
