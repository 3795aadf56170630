/**
 * The configuration store (config/app_config.py, class Config): an ini
 * document of sections holding string options, plus two records fixed at
 * construction, the about details and the module switches. The ini file is
 * abstracted to an IniFile object that either holds a document or is absent;
 * its text format is not modelled.
 */
module AppConfig {
  import opened Wrappers

  /** Options of one section, by name. */
  type Section = map<string, string>

  /** An ini document: sections by name. */
  type Document = map<string, Section>

  /** The section the application's window settings live in. */
  const AppSection := "APP"

  /** The APP section written on first run. */
  const DefaultAppSection: Section :=
    map["start_maximized" := "True", "screen_width" := "800", "screen_height" := "600"]

  const DefaultAboutInfo: map<string, string> := map[
    "name" := "PyQt6ify Pro",
    "version" := "1.0",
    "author" := "Your Name",
    "website" := "https://www.yourwebsite.com",
    "icon" := "resources/icons/app_icon.png"
  ]

  const DefaultModules: map<string, bool> := map[
    "logging" := true,
    "database" := true,
    "menu" := true,
    "toolbar" := true,
    "status_bar" := true
  ]

  /**
   * Reading ini text into a parser that already holds `doc`: the file's
   * sections are added, and in a section both hold, the file's options are
   * set over the existing ones.
   */
  function Merge(doc: Document, file: Document): (r: Document)
    ensures r.Keys == doc.Keys + file.Keys
    ensures forall s :: s in file && s !in doc ==> r[s] == file[s]
    ensures forall s :: s in doc && s !in file ==> r[s] == doc[s]
    ensures forall s :: s in doc && s in file ==>
      r[s].Keys == doc[s].Keys + file[s].Keys &&
      (forall o :: o in file[s] ==> r[s][o] == file[s][o]) &&
      (forall o :: o in doc[s] && o !in file[s] ==> r[s][o] == doc[s][o])
  {
    map s | s in doc.Keys + file.Keys ::
      if s in doc && s in file then doc[s] + file[s]
      else if s in file then file[s]
      else doc[s]
  }

  /** The document a new Config holds, given what the ini file held before. */
  function InitialDocument(file: Option<Document>): Document
  {
    match file
    case None => map[AppSection := DefaultAppSection]
    case Some(doc) => doc
  }

  /** The ini file on disk: `contents` is None while the file does not exist. */
  class IniFile {
    var contents: Option<Document>

    constructor (contents: Option<Document>)
      ensures this.contents == contents
    {
      this.contents := contents;
    }
  }

  class Config {
    const configFile: IniFile
    var config: Document
    const aboutInfo: map<string, string>
    const modules: map<string, bool>

    /**
     * Config(config_file): the two records are fixed; the ini file is
     * seeded with the APP section only when it is absent, then read.
     */
    constructor (file: IniFile)
      modifies file
      ensures configFile == file
      ensures aboutInfo == DefaultAboutInfo && modules == DefaultModules
      ensures config == InitialDocument(old(file.contents))
      ensures file.contents == Some(InitialDocument(old(file.contents)))
    {
      configFile := file;
      config := map[];
      aboutInfo := DefaultAboutInfo;
      modules := DefaultModules;
      new;
      if file.contents.None? {
        CreateDefaultConfig();
        assert config == InitialDocument(None);
        MergeSelf(config);
      } else {
        LoadAdoptsDocument(file.contents.value);
      }
      LoadConfig();
    }

    /** Reading the ini file into the document; an absent file is skipped. */
    method LoadConfig()
      modifies this`config
      ensures config == if configFile.contents.None? then old(config)
                        else Merge(old(config), configFile.contents.value)
    {
      if configFile.contents.Some? {
        config := Merge(config, configFile.contents.value);
      }
    }

    /** Sets the APP section to its defaults, leaves the other sections, and writes the document out. */
    method CreateDefaultConfig()
      modifies this`config, configFile
      ensures config.Keys == old(config.Keys) + {AppSection}
      ensures config[AppSection] == DefaultAppSection
      ensures forall s :: s in old(config) && s != AppSection ==> config[s] == old(config[s])
      ensures configFile.contents == Some(config)
    {
      config := config[AppSection := DefaultAppSection];
      configFile.contents := Some(config);
    }

    /** The option's stored value when section and option both exist, else `fallback`. */
    function Get(section: string, option: string, fallback: string): (r: string)
      reads this
      ensures section in config && option in config[section] ==> r == config[section][option]
      ensures section !in config || option !in config[section] ==> r == fallback
    {
      if section in config && option in config[section] then config[section][option] else fallback
    }

    /** An option of the APP section. */
    function GetAppSetting(option: string, fallback: string): (r: string)
      reads this
      ensures r == Get(AppSection, option, fallback)
    {
      Get(AppSection, option, fallback)
    }

    /** The about detail for `key`, or "Unknown" for a key the record lacks. */
    function GetAboutInfo(key: string): (r: string)
      ensures key in aboutInfo ==> r == aboutInfo[key]
      ensures key !in aboutInfo ==> r == "Unknown"
    {
      if key in aboutInfo then aboutInfo[key] else "Unknown"
    }

    /** Whether module `name` is switched on; an unknown module is off. */
    function IsModuleEnabled(name: string): (r: bool)
      ensures r <==> name in modules && modules[name]
    {
      name in modules && modules[name]
    }
  }

  // ---------------------------------------------------------------------
  // Properties

  /** A first run leaves exactly one section, APP, holding the three window defaults. */
  lemma FirstRunSeedsOnlyApp()
    ensures InitialDocument(None).Keys == {AppSection}
    ensures InitialDocument(None)[AppSection].Keys == {"start_maximized", "screen_width", "screen_height"}
    ensures "LOGGING" !in InitialDocument(None)
  {
  }

  /** An existing file's document is adopted unchanged: reading into an empty parser copies it. */
  lemma LoadAdoptsDocument(doc: Document)
    ensures Merge(map[], doc) == doc
  {
  }

  /** Reading a file into a parser that already holds exactly its document changes nothing. */
  lemma MergeSelf(doc: Document)
    ensures Merge(doc, doc) == doc
  {
    forall s | s in doc ensures Merge(doc, doc)[s] == doc[s] {
      assert doc[s] + doc[s] == doc[s];
    }
  }

  /** Reading the same file twice gives what reading it once gives. */
  lemma LoadIdempotent(held: Document, file: Document)
    ensures Merge(Merge(held, file), file) == Merge(held, file)
  {
    var once := Merge(held, file);
    var twice := Merge(once, file);
    forall s | s in twice ensures twice[s] == once[s] {
      if s in file {
        assert twice[s] == once[s] + file[s];
      }
    }
  }

  /** On a first run, the screen width read back is "800" whatever fallback is given. */
  lemma FreshScreenWidth(c: Config, fallback: string)
    requires c.config == InitialDocument(None)
    ensures c.GetAppSetting("screen_width", fallback) == "800"
  {
  }

  /** Every default module is on, and a name outside the record is off. */
  lemma DefaultModulesEnabled(c: Config, name: string)
    requires c.modules == DefaultModules
    ensures name in DefaultModules ==> c.IsModuleEnabled(name)
    ensures name !in DefaultModules ==> !c.IsModuleEnabled(name)
  {
  }
}
