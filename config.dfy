/** The persisted settings, class ConfigManager of
    src/backend/ConfigManager.ts: a JSON document at a fixed path whose
    top-level keys override the built-in defaults.

    The file is modelled as the document it holds, not as JSON text: absent,
    not parseable, parsed to something other than an object, or an object
    with some of the known keys. Writing stores exactly the configuration
    that was serialised. Whether the file can be read and written is fixed
    for the manager's lifetime. */
module Config {
  import opened Wrappers
  import opened FileStore
  import opened Units

  /** `AppConfig['timer']` */
  datatype TimerSettings = TimerSettings(enabled: bool, schedule: string, retention: Retention)

  /** `AppConfig` */
  datatype AppConfig = AppConfig(
    rootTarget: string,
    homeTarget: string,
    prefix: string,
    exclusions: seq<string>,
    timer: TimerSettings)

  /** `Partial<AppConfig>`: each top-level key present or absent; a present
      `timer` is a whole timer object. */
  datatype PartialConfig = PartialConfig(
    rootTarget: Option<string>,
    homeTarget: Option<string>,
    prefix: Option<string>,
    exclusions: Option<seq<string>>,
    timer: Option<TimerSettings>)

  /** What the configuration file holds. */
  datatype Document =
    | Malformed                  // JSON.parse throws
    | NotObject                  // parses to null, a number, a boolean or an array
    | Object(keys: PartialConfig)

  /** `defaultConfig` */
  const Defaults: AppConfig := AppConfig(
    "/root/.snapshots",
    "/root/.snapshots",
    "snap",
    ["Downloads", "Cache", ".cache", ".npm/_cacache", ".mozilla/firefox/*/cache2", ".config/google-chrome/*/Cache"],
    TimerSettings(false, "daily", Retention("count", 7)))

  const NoKeys: PartialConfig := PartialConfig(None, None, None, None, None)

  /** `{ ...base, ...p }`: a key present in `p` replaces the whole value in
      `base`, one level deep only. */
  function Merge(base: AppConfig, p: PartialConfig): AppConfig {
    AppConfig(
      if p.rootTarget.Some? then p.rootTarget.value else base.rootTarget,
      if p.homeTarget.Some? then p.homeTarget.value else base.homeTarget,
      if p.prefix.Some? then p.prefix.value else base.prefix,
      if p.exclusions.Some? then p.exclusions.value else base.exclusions,
      if p.timer.Some? then p.timer.value else base.timer)
  }

  /** Every key of a configuration, as `JSON.stringify` writes them all. */
  function AllKeys(c: AppConfig): PartialConfig {
    PartialConfig(Some(c.rootTarget), Some(c.homeTarget), Some(c.prefix), Some(c.exclusions), Some(c.timer))
  }

  /** Two spreads in a row, `{ ...{ ...base, ...p }, ...q }`, as one: `q`'s
      keys win over `p`'s. */
  function Then(p: PartialConfig, q: PartialConfig): PartialConfig {
    PartialConfig(
      if q.rootTarget.Some? then q.rootTarget else p.rootTarget,
      if q.homeTarget.Some? then q.homeTarget else p.homeTarget,
      if q.prefix.Some? then q.prefix else p.prefix,
      if q.exclusions.Some? then q.exclusions else p.exclusions,
      if q.timer.Some? then q.timer else p.timer)
  }

  /** What `getConfig` returns for the file's state: the defaults unless an
      object could be read, whose keys then override them. */
  function ConfigOf(file: Option<Document>, readable: bool): AppConfig {
    if file.Some? && readable && file.value.Object? then Merge(Defaults, file.value.keys) else Defaults
  }

  /** The configuration directory: `$XDG_CONFIG_HOME` when set and not
      empty, `$HOME/.config` otherwise. */
  function ConfigPath(xdgConfigHome: string, home: string): string {
    var configDir := if xdgConfigHome != "" then xdgConfigHome else PathJoin(home, ".config");
    PathJoin(PathJoin(configDir, "btrfs-visual-manager"), "config.json")
  }

  /** Each key of the result comes from the override when it carries that
      key and from the base otherwise; no key keeps the base's value when
      the override has one. */
  lemma MergeKeys(base: AppConfig, p: PartialConfig)
    ensures var r := Merge(base, p);
      (p.rootTarget == Some(r.rootTarget) || (p.rootTarget == None && r.rootTarget == base.rootTarget))
      && (p.homeTarget == Some(r.homeTarget) || (p.homeTarget == None && r.homeTarget == base.homeTarget))
      && (p.prefix == Some(r.prefix) || (p.prefix == None && r.prefix == base.prefix))
      && (p.exclusions == Some(r.exclusions) || (p.exclusions == None && r.exclusions == base.exclusions))
      && (p.timer == Some(r.timer) || (p.timer == None && r.timer == base.timer))
  {
  }

  /** No keys change nothing; all keys replace everything; and a written
      configuration reads back as itself. */
  lemma MergeExtremes(base: AppConfig, c: AppConfig)
    ensures Merge(base, NoKeys) == base
    ensures Merge(base, AllKeys(c)) == c
    ensures ConfigOf(Some(Object(AllKeys(c))), true) == c
  {
  }

  /** Applying the same keys twice is applying them once. */
  lemma MergeIdempotent(base: AppConfig, p: PartialConfig)
    ensures Merge(Merge(base, p), p) == Merge(base, p)
  {
  }

  /** Two merges in a row are one merge of the combined keys. */
  lemma MergeThen(base: AppConfig, p: PartialConfig, q: PartialConfig)
    ensures Merge(Merge(base, p), q) == Merge(base, Then(p, q))
  {
  }

  /** The timer is replaced as a whole: a new timer object that leaves out
      nothing still discards every field of the old one, so enabling the
      timer through `setConfig` must send its schedule and retention too. */
  lemma TimerReplacedWhole(base: AppConfig, t: TimerSettings)
    ensures Merge(base, NoKeys.(timer := Some(t))).timer == t
    ensures Merge(base, NoKeys.(timer := Some(t))).timer.retention == t.retention
  {
  }

  /** Without a usable object in the file, the defaults are read. */
  lemma DefaultsWithoutObject(file: Option<Document>, readable: bool)
    requires file == None || !readable || !file.value.Object?
    ensures ConfigOf(file, readable) == Defaults
    ensures Defaults.timer.retention == Retention("count", 7) && !Defaults.timer.enabled
  {
  }

  class ConfigManager {
    /** The file at `configPath`, when it exists. */
    var file: Option<Document>
    const configPath: string
    /** Whether `readFileSync` on the file succeeds. */
    const readable: bool
    /** Whether `writeFileSync` on the file succeeds. */
    const writable: bool

    constructor (xdgConfigHome: string, home: string, file: Option<Document>, readable: bool, writable: bool)
      ensures configPath == ConfigPath(xdgConfigHome, home)
      ensures this.file == file && this.readable == readable && this.writable == writable
    {
      var configDir := if xdgConfigHome != "" then xdgConfigHome else PathJoin(home, ".config");
      var appConfigDir := PathJoin(configDir, "btrfs-visual-manager");
      configPath := PathJoin(appConfigDir, "config.json");
      this.file := file;
      this.readable := readable;
      this.writable := writable;
    }

    /** `getConfig`: never fails; every error gives the defaults. */
    function GetConfig(): (c: AppConfig)
      reads this
      ensures c == ConfigOf(file, readable)
    {
      if file.Some? then
        if !readable then Defaults
        else match file.value
          case Malformed => Defaults
          case NotObject => Defaults
          case Object(keys) => Merge(Defaults, keys)
      else Defaults
    }

    /** `setConfig`: stores the current configuration overridden by `p`,
        with every key written out; false, with the file untouched, when
        the write fails. */
    method SetConfig(p: PartialConfig) returns (ok: bool)
      modifies this
      ensures ok == writable
      ensures writable ==> file == Some(Object(AllKeys(Merge(old(GetConfig()), p))))
      ensures !writable ==> file == old(file)
      ensures writable && readable ==> GetConfig() == Merge(old(GetConfig()), p)
      ensures !readable ==> GetConfig() == Defaults
    {
      var currentConfig := GetConfig();
      var newConfig := Merge(currentConfig, p);
      if !writable {
        return false;
      }
      file := Some(Object(AllKeys(newConfig)));
      MergeExtremes(Defaults, newConfig);
      ok := true;
    }

    /** `resetConfig`: stores the defaults and returns them, also when the
        write fails. */
    method ResetConfig() returns (c: AppConfig)
      modifies this
      ensures c == Defaults
      ensures writable ==> file == Some(Object(AllKeys(Defaults)))
      ensures !writable ==> file == old(file)
      ensures writable && readable ==> GetConfig() == Defaults
    {
      if writable {
        file := Some(Object(AllKeys(Defaults)));
        MergeExtremes(Defaults, Defaults);
      }
      c := Defaults;
    }
  }
}
