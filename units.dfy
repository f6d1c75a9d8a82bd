/** The texts TimersManager generates (src/backend/TimersManager.ts): the
    snapshot shell script with its retention block, and the systemd service
    and timer units. All are pure templates; what the script does when run
    is not modelled, only the text. */
module Units {
  import opened Wrappers
  import opened Text

  /** `TimerConfig['retention']`: `kind` is the `type` field (`count` or
      `age`), `value` the count or the number of days. */
  datatype Retention = Retention(kind: string, value: int)

  /** `TimerConfig` */
  datatype TimerConfig = TimerConfig(schedule: string, retention: Retention)

  const ServiceUnit: string := "btrfs-snap.service"
  const TimerUnit: string := "btrfs-snap.timer"

  /** `getOnCalendarValue`: each known schedule is its own systemd calendar
      keyword; anything else falls back to `daily`. */
  function OnCalendarValue(schedule: string): (r: string)
    ensures r == "hourly" || r == "daily" || r == "weekly"
    ensures schedule == "hourly" || schedule == "daily" || schedule == "weekly" ==> r == schedule
    ensures schedule != "hourly" && schedule != "weekly" ==> r == "daily"
  {
    if schedule == "hourly" then "hourly"
    else if schedule == "daily" then "daily"
    else if schedule == "weekly" then "weekly"
    else "daily"
  }

  // ---------------------------------------------------------------------------
  // The script

  /** The fixed text of the header, up to the opening quote of `ROOT_TARGET`. */
  const HeaderBanner: string :=
    "#!/bin/bash\n# Script generado automáticamente por Btrfs Visual Manager\n# No editar manualmente\n\n"
    + "TIMESTAMP=$(date +%Y-%m-%d_%H-%M-%S)\n"
    + "ROOT_TARGET=\""
  const HomeTargetLine: string := "\"\nHOME_TARGET=\""
  const PrefixLine: string := "\"\nPREFIX=\""
  const StartMessage: string := "\"\n\necho \"=== Iniciando creación de snapshots $(date) ===\"\n\n"

  /** The header: shebang, timestamp and the three variables, each value
      between double quotes. */
  function ScriptHeader(rootTarget: string, homeTarget: string, prefix: string): string {
    HeaderBanner + rootTarget + HomeTargetLine + homeTarget + PrefixLine + prefix + StartMessage
  }

  const ExitFailure: string := "exit 1"

  const RootIntro: string := "# Crear snapshot de root\necho \"Creando snapshot de root...\"\n"
  const RootCommand: string := "pkexec btrfs subvolume snapshot -r / \"$ROOT_TARGET/${PREFIX}_root_$TIMESTAMP\""
  const RootCheckHead: string :=
    "\nif [ $? -eq 0 ]; then\n    echo \"✓ Snapshot de root creado\"\nelse\n    echo \"✗ Error creando snapshot de root\"\n    "
  const RootCheck: string := RootCheckHead + ExitFailure + "\nfi\n\n"

  const HomeIntro: string := "# Crear snapshot de home\necho \"Creando snapshot de home...\"\n"
  const HomeCommand: string := "pkexec btrfs subvolume snapshot -r /home \"$HOME_TARGET/${PREFIX}_home_$TIMESTAMP\""
  const HomeCheck: string :=
    "\nif [ $? -eq 0 ]; then\n    echo \"✓ Snapshot de home creado\"\nelse\n    echo \"✗ Error creando snapshot de home\"\n    "
    + ExitFailure + "\nfi\n\n"

  const CleanupHeading: string := "# Limpieza según retención\n"

  const ScriptTrailer: string := "\n\necho \"=== Snapshots completados $(date) ===\"\n"

  /** The two snapshot steps and the heading of the cleanup, between the
      header and the retention block. */
  const SnapshotSteps: string :=
    RootIntro + RootCommand + RootCheck + HomeIntro + HomeCommand + HomeCheck + CleanupHeading

  /** `generateScript` */
  function Script(rootTarget: string, homeTarget: string, prefix: string, retention: Retention): string {
    ScriptHeader(rootTarget, homeTarget, prefix) + SnapshotSteps
    + RetentionBlock(rootTarget, homeTarget, prefix, retention) + ScriptTrailer
  }

  /** Where the retention block starts in the script. */
  function BlockStart(rootTarget: string, homeTarget: string, prefix: string): nat {
    |ScriptHeader(rootTarget, homeTarget, prefix)| + |SnapshotSteps|
  }

  /** The block chosen by `retention.type === 'count'`. */
  function RetentionBlock(rootTarget: string, homeTarget: string, prefix: string, retention: Retention): string {
    if retention.kind == "count"
    then CountRetention(rootTarget, homeTarget, prefix, retention.value)
    else AgeRetention(rootTarget, homeTarget, prefix, retention.value)
  }

  const RetentionIntro: string := "\necho \"Aplicando retención por "

  /** The pipeline naming the snapshots of one kind to delete: the listing,
      only names with the prefix and kind, newest first, all but the first
      `count`, last column. */
  function Selector(target: string, prefix: string, kind: string, count: int): string {
    "pkexec btrfs subvolume list -r " + target + " | " + KindFilter(prefix, kind)
    + " | " + NewestFirst + " | " + SkipNewest(count) + " | awk '{print $NF}'"
  }

  function KindFilter(prefix: string, kind: string): string {
    "grep \"" + prefix + "_" + kind + "_\""
  }

  const NewestFirst: string := "sort -r"

  function SkipNewest(count: int): string {
    "tail -n +$((" + IntToString(count) + " + 1))"
  }

  function DeleteEach(target: string): string {
    "pkexec btrfs subvolume delete \"" + target + "/$snap\""
  }

  const CleanupComment: string := "# Limpiar snapshots antiguos de "
  const CaptureOpen: string := "\n"

  function CleanupHead(kind: string, variable: string): string {
    CleanupComment + kind + CaptureOpen + variable + "=$("
  }

  function CleanupLoop(variable: string, target: string): string {
    ")\nfor snap in $" + variable + "; do\n    echo \"Eliminando snapshot antiguo: " + target + "/$snap\"\n    "
  }

  /** The count-retention cleanup of one kind: the selected names, each
      deleted under `target`. */
  function CountCleanup(kind: string, variable: string, target: string, prefix: string, count: int): string {
    CleanupHead(kind, variable) + Selector(target, prefix, kind, count)
    + CleanupLoop(variable, target) + DeleteEach(target) + "\ndone\n"
  }

  const Root: string := "root"
  const Home: string := "home"
  const RootList: string := "ROOT_SNAPS"
  const HomeList: string := "HOME_SNAPS"

  const CountTopic: string := "cantidad (mantener últimos "

  function CountHead(count: int): string {
    RetentionIntro + CountTopic + IntToString(count) + ")...\"\n\n"
  }

  /** `generateCountRetention` */
  function CountRetention(rootTarget: string, homeTarget: string, prefix: string, count: int): string {
    CountHead(count) + CountCleanup(Root, RootList, rootTarget, prefix, count) + "\n"
    + CountCleanup(Home, HomeList, homeTarget, prefix, count)
  }

  const DeleteFound: string := " -exec pkexec btrfs subvolume delete {} \\;"

  /** The `find` command deleting the snapshots of one kind older than
      `days` days. */
  function FindOlder(target: string, prefix: string, kind: string, days: int): string {
    "find " + target + " -maxdepth 1 -name \"" + prefix + "_" + kind + "_*\" " + OlderThan(days) + DeleteFound
  }

  function OlderThan(days: int): string {
    "-mtime +" + IntToString(days)
  }

  const AgeTopic: string := "edad (eliminar mayores a "

  function AgeHead(days: int): string {
    RetentionIntro + AgeTopic + IntToString(days) + " días)...\"\n\n"
  }

  const RootCleanupHeading: string := "# Limpiar snapshots antiguos de root\n"
  const HomeCleanupHeading: string := "\n\n# Limpiar snapshots antiguos de home\n"

  /** `generateAgeRetention` */
  function AgeRetention(rootTarget: string, homeTarget: string, prefix: string, days: int): string {
    AgeHead(days) + RootCleanupHeading + FindOlder(rootTarget, prefix, "root", days)
    + HomeCleanupHeading + FindOlder(homeTarget, prefix, "home", days) + "\n"
  }

  // ---------------------------------------------------------------------------
  // The systemd units

  /** One `key=value` line of a unit file. */
  function Assignment(key: string, value: string): string {
    key + "=" + value
  }

  function ServiceLines(scriptPath: string): seq<string> {
    ["[Unit]", Assignment("Description", "Btrfs Snapshot Service"), Assignment("After", "local-fs.target"), "",
     "[Service]", Assignment("Type", "oneshot"), Assignment("ExecStart", scriptPath),
     Assignment("StandardOutput", "journal"), Assignment("StandardError", "journal"), "",
     "[Install]", Assignment("WantedBy", "default.target"), ""]
  }

  /** `generateServiceFile` */
  function ServiceFile(scriptPath: string): string {
    Join(ServiceLines(scriptPath), "\n")
  }

  function TimerLines(schedule: string): seq<string> {
    ["[Unit]", Assignment("Description", "Btrfs Snapshot Timer"), Assignment("Requires", ServiceUnit), "",
     "[Timer]", Assignment("OnCalendar", OnCalendarValue(schedule)), Assignment("Persistent", "true"), "",
     "[Install]", Assignment("WantedBy", "timers.target"), ""]
  }

  /** `generateTimerFile` */
  function TimerFile(schedule: string): string {
    Join(TimerLines(schedule), "\n")
  }

  /** A unit's setting for `key`: the value of the key's first assignment,
      `key=value` on a line of its own (each key is assigned once in these
      units, so this is also the value systemd takes). */
  function Setting(unit: string, key: string): Option<string> {
    FirstSetting(Split(unit, '\n'), key + "=")
  }

  function FirstSetting(lines: seq<string>, head: string): Option<string>
    decreases |lines|
  {
    if |lines| == 0 then None
    else if StartsWith(lines[0], head) then Some(lines[0][|head|..])
    else FirstSetting(lines[1..], head)
  }
}
