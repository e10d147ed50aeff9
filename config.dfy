/**
 * src/config.ts: the persisted configuration, the merge of a parsed config
 * file over the defaults, and the most-recently-used list that
 * `addRecentDirectory` maintains.
 *
 * The config file is an abstract store holding what `JSON.parse` of
 * `~/.config/kai/config.json` would yield: nothing, a parse failure, or a
 * record whose known keys may each be present or absent.
 */
module Config {
  import opened Base

  datatype RecentDirectory = RecentDirectory(path: string, accessedAt: int, name: string)

  datatype KaiConfig = KaiConfig(projectsDir: string, recentDirs: seq<RecentDirectory>, maxRecents: int)

  /** The keys of a parsed config file; a key the file does not have is `None`. */
  datatype ParsedConfig = ParsedConfig(
    projectsDir: Option<string>,
    recentDirs: Option<seq<RecentDirectory>>,
    maxRecents: Option<int>)

  /** What reading and parsing the config file gives. */
  datatype ConfigFile = Missing | Unparsable | Parsed(fields: ParsedConfig)

  /** `DEFAULT_CONFIG` for the home directory `home`. */
  function DefaultConfig(home: string): (c: KaiConfig)
    ensures c.recentDirs == [] && c.maxRecents == 10
    ensures c.projectsDir == home + "/Documents/kirana_labs/projects"
  {
    KaiConfig(home + "/Documents/kirana_labs/projects", [], 10)
  }

  /** The record `JSON.stringify(config)` writes, read back: every key present. */
  function Stored(c: KaiConfig): ParsedConfig {
    ParsedConfig(Some(c.projectsDir), Some(c.recentDirs), Some(c.maxRecents))
  }

  /** `{ ...defaults, ...parsed }`: a key of the file wins over the default. */
  function Merge(defaults: KaiConfig, parsed: ParsedConfig): (c: KaiConfig)
    ensures parsed.projectsDir.Some? ==> c.projectsDir == parsed.projectsDir.value
    ensures parsed.projectsDir.None? ==> c.projectsDir == defaults.projectsDir
    ensures parsed.recentDirs.Some? ==> c.recentDirs == parsed.recentDirs.value
    ensures parsed.recentDirs.None? ==> c.recentDirs == defaults.recentDirs
    ensures parsed.maxRecents.Some? ==> c.maxRecents == parsed.maxRecents.value
    ensures parsed.maxRecents.None? ==> c.maxRecents == defaults.maxRecents
  {
    KaiConfig(
      parsed.projectsDir.GetOr(defaults.projectsDir),
      parsed.recentDirs.GetOr(defaults.recentDirs),
      parsed.maxRecents.GetOr(defaults.maxRecents))
  }

  /**
   * The configuration `loadConfig` returns for a given state of the file,
   * with `defaults` what `DEFAULT_CONFIG` holds at the time.
   */
  function Loaded(defaults: KaiConfig, file: ConfigFile): (c: KaiConfig)
    ensures !file.Parsed? ==> c == defaults
    ensures file.Parsed? ==> c == Merge(defaults, file.fields)
  {
    match file
    case Missing => defaults
    case Unparsable => defaults
    case Parsed(fields) => Merge(defaults, fields)
  }

  /** A saved configuration loads back unchanged, whatever the defaults. */
  lemma LoadAfterSave(defaults: KaiConfig, c: KaiConfig)
    ensures Loaded(defaults, Parsed(Stored(c))) == c
  {
  }

  /**
   * A file with none of the keys loads as the defaults: projects under
   * `Documents/kirana_labs/projects` in the home directory, no recent
   * directories and a limit of 10.
   */
  lemma LoadEmptyRecord(home: string)
    ensures var c := Loaded(DefaultConfig(home), Parsed(ParsedConfig(None, None, None)));
      && c.projectsDir == home + "/Documents/kirana_labs/projects"
      && c.recentDirs == []
      && c.maxRecents == 10
  {
  }

  /**
   * Loading is stable: the file `loadConfig` leaves behind (the defaults
   * written out for a missing file, otherwise the file as it was) loads as
   * the configuration it returned.
   */
  lemma ReloadIsStable(defaults: KaiConfig, file: ConfigFile)
    ensures var after := if file.Missing? then Parsed(Stored(defaults)) else file;
      Loaded(defaults, after) == Loaded(defaults, file)
  {
    if file.Missing? {
      LoadAfterSave(defaults, defaults);
    }
  }

  // ---------------------------------------------------------------------------
  // The recency list.

  /** `recentDirs.filter(d => d.path !== path)`. */
  function RemovePath(dirs: seq<RecentDirectory>, path: string): (r: seq<RecentDirectory>)
    ensures |r| <= |dirs|
    ensures forall d :: d in r <==> d in dirs && d.path != path
  {
    Filter(dirs, ElsewhereThan(path))
  }

  /** The filter's test: the entry is for some other path. */
  function ElsewhereThan(path: string): RecentDirectory -> bool {
    (d: RecentDirectory) => d.path != path
  }

  /** The index JavaScript's `slice` turns `end` into on a list of length `len`. */
  function SliceIndex(len: nat, end: int): (k: nat)
    ensures k <= len
    ensures end >= 0 ==> k == if end < len then end else len
    ensures end < 0 ==> k == if len + end > 0 then len + end else 0
  {
    if end < 0 then (if len + end > 0 then len + end else 0)
    else if end < len then end
    else len
  }

  /** `s.slice(0, end)`. */
  function Take<T>(s: seq<T>, end: int): seq<T> {
    s[..SliceIndex(|s|, end)]
  }

  /** The list after `addRecentDirectory(path, name)` at time `now`. */
  function AddRecent(dirs: seq<RecentDirectory>, path: string, name: string, now: int, maxRecents: int): (r: seq<RecentDirectory>)
    ensures |r| <= 1 + |dirs|
    ensures forall i :: 0 <= i < |r| ==> r[i] == RecentDirectory(path, now, name) || r[i] in dirs
  {
    Take([RecentDirectory(path, now, name)] + RemovePath(dirs, path), maxRecents)
  }

  /** The new entry comes first, and it is there whenever at least one entry is kept. */
  lemma AddRecentFront(dirs: seq<RecentDirectory>, path: string, name: string, now: int, maxRecents: int)
    ensures var r := AddRecent(dirs, path, name, now, maxRecents);
      && (r != [] ==> r[0] == RecentDirectory(path, now, name))
      && (maxRecents >= 1 ==> r != [])
  {
  }

  /** A repeat visit never duplicates: only the first entry has the path. */
  lemma AddRecentUnique(dirs: seq<RecentDirectory>, path: string, name: string, now: int, maxRecents: int)
    ensures var r := AddRecent(dirs, path, name, now, maxRecents);
      forall i :: 0 < i < |r| ==> r[i].path != path
  {
    var r := AddRecent(dirs, path, name, now, maxRecents);
    var rest := RemovePath(dirs, path);
    forall i | 0 < i < |r| ensures r[i].path != path {
      assert r[i] == rest[i - 1];
      assert rest[i - 1] in rest;
    }
  }

  /**
   * With a non-negative limit the list holds `maxRecents` entries, or all of
   * them when there are fewer; the entries after the first are the old ones
   * without the path, in their old order, cut short.
   */
  lemma AddRecentShape(dirs: seq<RecentDirectory>, path: string, name: string, now: int, maxRecents: int)
    ensures var r, rest := AddRecent(dirs, path, name, now, maxRecents), RemovePath(dirs, path);
      && (maxRecents >= 0 ==> |r| <= maxRecents)
      && (maxRecents >= 0 ==> |r| == if maxRecents < 1 + |rest| then maxRecents else 1 + |rest|)
      && (r != [] ==> r[1..] == rest[..|r| - 1])
  {
    var r, rest := AddRecent(dirs, path, name, now, maxRecents), RemovePath(dirs, path);
    if r != [] {
      assert r[1..] == rest[..|r| - 1];
    }
  }

  /** Dropping the path from the path's own entry followed by a list without it gives that list. */
  lemma RemoveLeading(e: RecentDirectory, s: seq<RecentDirectory>, path: string)
    requires e.path == path
    requires forall d :: d in s ==> d.path != path
    ensures RemovePath([e] + s, path) == s
  {
    FilterAppend([e], s, ElsewhereThan(path));
    FilterSingleton(e, ElsewhereThan(path));
    FilterAll(s, ElsewhereThan(path));
  }

  /**
   * With a non-negative limit, visiting a directory twice leaves the list a
   * single visit at the later time would.
   */
  lemma AddRecentTwice(dirs: seq<RecentDirectory>, path: string, name1: string, now1: int,
                       name2: string, now2: int, maxRecents: int)
    requires maxRecents >= 0
    ensures AddRecent(AddRecent(dirs, path, name1, now1, maxRecents), path, name2, now2, maxRecents)
         == AddRecent(dirs, path, name2, now2, maxRecents)
  {
    var rest := RemovePath(dirs, path);
    var e1, e2 := RecentDirectory(path, now1, name1), RecentDirectory(path, now2, name2);
    var once := AddRecent(dirs, path, name1, now1, maxRecents);
    var k := |once|;
    if k > 0 {
      var kept := rest[..k - 1];
      assert once == [e1] + kept;
      assert forall d :: d in kept ==> d in rest;
      RemoveLeading(e1, kept, path);
      assert ([e2] + rest)[..k] == [e2] + kept;
    }
  }

  // ---------------------------------------------------------------------------
  // The config file and the operations that read and write it.

  /** A configuration object, which JavaScript code can change in place. */
  class ConfigObject {
    var projectsDir: string
    var recentDirs: seq<RecentDirectory>
    var maxRecents: int

    constructor (c: KaiConfig)
      ensures Value() == c
    {
      projectsDir := c.projectsDir;
      recentDirs := c.recentDirs;
      maxRecents := c.maxRecents;
    }

    function Value(): KaiConfig
      reads this
    {
      KaiConfig(projectsDir, recentDirs, maxRecents)
    }
  }

  /** The config file under `home`, with what it currently holds, and the module's `DEFAULT_CONFIG` object. */
  class ConfigStore {
    const home: string
    const defaultConfig: ConfigObject
    /**
     * Whether `loadConfig` hands out a copy of `DEFAULT_CONFIG` for a missing
     * or unparsable file. As written it hands out the object itself
     * (`false`); a copy (`true`) is the correction recorded under Findings.
     */
    const copiesDefaults: bool
    var file: ConfigFile

    constructor (home: string, file: ConfigFile, copiesDefaults: bool)
      ensures this.home == home && this.file == file && this.copiesDefaults == copiesDefaults
      ensures fresh(defaultConfig) && defaultConfig.Value() == DefaultConfig(home)
    {
      this.home := home;
      this.file := file;
      this.copiesDefaults := copiesDefaults;
      defaultConfig := new ConfigObject(DefaultConfig(home));
    }

    /** Whether `loadConfig` on `file` returns the `DEFAULT_CONFIG` object itself. */
    predicate Shares(file: ConfigFile) {
      !file.Parsed? && !copiesDefaults
    }

    /** `saveConfig(config)`: the file now holds every key of `config`. */
    method SaveConfig(config: KaiConfig)
      modifies this
      ensures file == Parsed(Stored(config))
    {
      file := Parsed(Stored(config));
    }

    /**
     * `loadConfig()`: a missing file is created with the defaults and the
     * defaults are returned; a file that fails to parse gives the defaults
     * and is left alone; a parsed file is merged over the defaults into a
     * new object.
     */
    method LoadConfig() returns (config: ConfigObject)
      modifies this
      ensures config.Value() == Loaded(defaultConfig.Value(), old(file))
      ensures Shares(old(file)) ==> config == defaultConfig
      ensures !Shares(old(file)) ==> fresh(config)
      ensures file == if old(file).Missing? then Parsed(Stored(defaultConfig.Value())) else old(file)
    {
      if file.Missing? {
        SaveConfig(defaultConfig.Value());
      } else if file.Parsed? {
        config := new ConfigObject(Merge(defaultConfig.Value(), file.fields));
        return;
      }
      // A missing or unparsable file: the defaults.
      if copiesDefaults {
        config := new ConfigObject(defaultConfig.Value());
      } else {
        config := defaultConfig;
      }
    }

    /**
     * `addRecentDirectory(path, name)` at time `now`: the loaded list loses
     * the path, gains the new entry at the front, is cut to `maxRecents` and
     * the whole configuration is saved. When the loaded object is
     * `DEFAULT_CONFIG` itself, that object is changed with it.
     */
    method AddRecentDirectory(path: string, name: string, now: int)
      modifies this, defaultConfig
      ensures var before := Loaded(old(defaultConfig.Value()), old(file));
        var after := before.(recentDirs := AddRecent(before.recentDirs, path, name, now, before.maxRecents));
        && file == Parsed(Stored(after))
        && defaultConfig.Value() == if Shares(old(file)) then after else old(defaultConfig.Value())
    {
      var config := LoadConfig();
      config.recentDirs := RemovePath(config.recentDirs, path);
      config.recentDirs := [RecentDirectory(path, now, name)] + config.recentDirs;
      config.recentDirs := Take(config.recentDirs, config.maxRecents);
      SaveConfig(config.Value());
    }
  }

  /** After a visit the persisted list starts with that visit, whatever the file held before. */
  lemma VisitIsRemembered(defaults: KaiConfig, file: ConfigFile, path: string, name: string, now: int)
    requires Loaded(defaults, file).maxRecents >= 1
    ensures var before := Loaded(defaults, file);
      var after := Loaded(defaults, Parsed(Stored(before.(recentDirs := AddRecent(before.recentDirs, path, name, now, before.maxRecents)))));
      && after.recentDirs != []
      && after.recentDirs[0] == RecentDirectory(path, now, name)
      && after.projectsDir == before.projectsDir
      && after.maxRecents == before.maxRecents
  {
    var before := Loaded(defaults, file);
    AddRecentFront(before.recentDirs, path, name, now, before.maxRecents);
  }
}
