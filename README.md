# Btrfs snapshot backend, modelled in Dafny

This project models the backend of a Btrfs snapshot manager (`src/backend/`):

- **BtrfsManager**: the snapshot orchestrator. It probes the system, lists read-only subvolumes, creates the root and home snapshots, restores a snapshot as the default subvolume and deletes one.
- **TimersManager**: generates the snapshot shell script and the systemd user units. It installs them, enables or disables the timer, and reports the timer's state.
- **ConfigManager**: the persisted settings. The stored document's top-level keys override the defaults.
- **Logger**: a log file that rotates into a single `.old` backup.

No process is spawned and no real file is touched.

- **Commands.** External commands run through `Process.Runner`. It records every invocation, as program plus argument vector, in `trace`. The reply to each invocation comes from an oracle `world` that sees the whole trace up to and including that command. Every orchestration method therefore states exactly which commands it issued, in which order, and how each reply decided the result.
- **Files.** Files live in `FileStore.FileSystem`, a map from path to text. A map of faulty paths makes every operation on those paths throw.
- **Configuration.** The configuration file is modelled as the document it holds.
- **Times and clocks.** Date parsing, the current time and the ISO timestamp are parameters.

Module layout:

| file | module | models |
|---|---|---|
| wrappers.dfy | Wrappers | `Option` |
| text.dfy | Text | the JavaScript string operations used: `split`, `split(/\s+/)`, `trim`, `includes`, `replace`, `substring`, `join`, integer to text |
| process.dfy | Process | `execCommand`: elevation through `pkexec` and the non-throwing settle rule |
| listing.dfy | Listing | the parser of `btrfs subvolume list` output inside `listSnapshots` |
| btrfs.dfy | Btrfs | class `BtrfsManager` |
| filesystem.dfy | FileStore | the part of Node's `fs` the backend calls |
| logger.dfy | Logging | class `Logger` |
| units.dfy | Units | the script, service and timer texts of `TimersManager` |
| unit_facts.dfy | UnitFacts | what those texts say: step order, the retention block chosen, the settings the units read back as |
| timers.dfy | Timers | class `TimersManager` |
| config.dfy | Config | class `ConfigManager` |

Two behaviours of the listing are modelled exactly as written:

- **Every hyphen becomes `:`.** The date text given to the date parser has every hyphen replaced by `:`, the date's own hyphens included, so it reads `YYYY:MM:DDTHH:MM:SS` (`Listing.DateTextShape`).
- **Created names carry no parseable stamp.** The names `createSnapshot` builds have a `T` between date and time, while the listing's stamp pattern wants `_`. Listing one of them therefore gives the time of the listing itself (`Btrfs.CreatedNamesHaveNoStamp`).

## Model

| member | source | states |
|---|---|---|
| Process.ElevationKeepsArguments | src/backend/BtrfsManager.ts:50-51 | with elevation the program is `pkexec` and its argv, as pkexec reads it, is the original command followed by the original arguments unchanged; without elevation the command is run as given |
| Process.Settle | src/backend/BtrfsManager.ts:67-74 | the result keeps stdout; a spawn error resolves with code 1 and the error message as stderr; a closed process keeps its stderr, its exit code, and a null exit code becomes 0 |
| Process.Wrap | src/backend/BtrfsManager.ts:50-51 | the invocation actually spawned: `pkexec` followed by the command and its arguments when elevated, the command as given otherwise (proved in `Process.ElevationKeepsArguments`) |
| Process.Runner.Exec | src/backend/BtrfsManager.ts:48-76 | appends exactly the wrapped invocation to the trace and returns the settled reply of the oracle for that trace; never fails |
| Listing.PathCapture | src/backend/BtrfsManager.ts:138 | `line.match(/path\s+(.+)$/)`: the capture of the leftmost match, or none (characterised by `Listing.PathCaptureLeftmost` and `Listing.MatchAtAnchor`) |
| Listing.RecordOf | src/backend/BtrfsManager.ts:140-163 | the snapshot record built from one captured path (its fields stated by `Listing.RecordOfFields`) |
| Listing.Records | src/backend/BtrfsManager.ts:134-165 | the records pushed by the loop, one per non-blank line that matches, in line order (`Listing.RecordsSnoc`, `Listing.ListingRoundTrip`) |
| Listing.NewestFirst | src/backend/BtrfsManager.ts:170 | the stable sort by `b.timestamp - a.timestamp` (newest first and a permutation, by `Listing.NewestFirstSorts`) |
| Listing.SpaceRunEnd | src/backend/BtrfsManager.ts:138 | the greedy `\s+` run: every character up to the end is white space and the next one is not |
| Listing.MatchAtAnchor | src/backend/BtrfsManager.ts:138 | a match of `path\s+(.+)$` starts at `i` exactly when `path`, a white-space character and one more character start there, and it captures the rest of the line after the greedy white space (leaving at least one character) |
| Listing.CaptureFromFirstAnchor | src/backend/BtrfsManager.ts:138 | scanning from `i`, the first position where a match can start decides the capture |
| Listing.CaptureFromNoAnchor | src/backend/BtrfsManager.ts:138 | with no possible match start from `i` on, nothing is captured |
| Listing.LeastAnchor | src/backend/BtrfsManager.ts:138 | every possible match start has a leftmost one at or before it |
| Listing.PathCaptureLeftmost | src/backend/BtrfsManager.ts:138 | a line matches iff some position can start a match, and the capture is the one from the leftmost such position |
| Listing.NoPathNoCapture | src/backend/BtrfsManager.ts:138 | a line without `path` from some point on captures nothing from there |
| Listing.ReplaceFirstAt | src/backend/BtrfsManager.ts:153 | `replace('_', 'T')` changes exactly the first `_` |
| Listing.DateTextShape | src/backend/BtrfsManager.ts:150-154 | for a trailing stamp `YYYY-MM-DD_HH-MM-SS` the date text is 19 characters with `T` at 10 and `:` at 4, 7, 13 and 16 (every hyphen replaced), the digits kept |
| Listing.RecordOfFields | src/backend/BtrfsManager.ts:140-163 | each record's path is `targetDir/captured`, it is read-only, its name is the last `/`-segment of the capture, and its type is home iff the name contains `_home_` |
| Listing.NonBlank | src/backend/BtrfsManager.ts:134 | the lines kept are exactly the lines whose trim is not empty |
| Listing.InsertNewestKeepsOrder | src/backend/BtrfsManager.ts:170 | inserting one snapshot into a newest-first sequence keeps it newest first |
| Listing.InsertNewestAdds | src/backend/BtrfsManager.ts:170 | inserting adds exactly that snapshot |
| Listing.InsertNewestBounded | src/backend/BtrfsManager.ts:170 | inserting a snapshot no newer than a bound keeps every element within the bound |
| Listing.NewestFirstSorts | src/backend/BtrfsManager.ts:170 | the sort gives a newest-first permutation of its input |
| Listing.ParseListing | src/backend/BtrfsManager.ts:134-170 | the loop yields one record per non-blank line that matches, in line order, then sorted newest first |
| Listing.CaptureAfterColumns | src/backend/BtrfsManager.ts:137-140 | a line of numeric columns followed by ` path <p>` captures exactly `p` |
| Listing.EntryLineCapture | src/backend/BtrfsManager.ts:137-140 | a rendered subvolume line captures its relative path; a line without `path` captures nothing |
| Listing.RecordsSnoc | src/backend/BtrfsManager.ts:136-165 | one more line adds one record exactly when it matches |
| Listing.BlankLineDoesNotMatch | src/backend/BtrfsManager.ts:134-138 | a blank line never matches, so dropping blank lines changes nothing |
| Listing.BlankLinesDoNotMatch | src/backend/BtrfsManager.ts:134-138 | the records of the non-blank lines are the records of all lines |
| Listing.RenderedRecords | src/backend/BtrfsManager.ts:136-165 | rendered listing lines give one record per subvolume entry, in order |
| Listing.ListingRoundTrip | src/backend/BtrfsManager.ts:134-165 | a listing rendered from subvolume entries and other lines, joined by line breaks, parses back to exactly the records of its entries |
| Btrfs.DfSpace | src/backend/BtrfsManager.ts:104-114 | the space figures read from the second line of the df report, none without one (`Btrfs.DfReportRoundTrip`, `Btrfs.DfSingleLine`) |
| Btrfs.DfReportRoundTrip | src/backend/BtrfsManager.ts:104-114 | a df report whose second line holds at least four blank-separated columns reports columns 1, 2 and 3 as total, used and available, whatever the header and the following lines |
| Btrfs.DfSingleLine | src/backend/BtrfsManager.ts:105-106 | output without a second line reports no figures |
| Btrfs.StampTokenShape | src/backend/BtrfsManager.ts:175 | the token of an ISO instant is 19 characters, has `T` at 10 and no `_` |
| Btrfs.CreatedNamesHaveNoStamp | src/backend/BtrfsManager.ts:175-177 | the root and home names created carry no trailing stamp of the listing's pattern, so their listed timestamp is the listing time |
| Btrfs.CreatedNamesKinds | src/backend/BtrfsManager.ts:176-177 | the home name is classified home; the root name is classified root when the prefix has no `_` |
| Btrfs.RestoreNoteIsBody | src/backend/BtrfsManager.ts:281-295 | trimming the note template gives the note body |
| Btrfs.RestoreNoteAdvice | src/backend/BtrfsManager.ts:281-295 | the note contains `systemctl reboot` and `btrfs subvolume set-default 5 /mnt` |
| Btrfs.BtrfsManager.CheckSystem | src/backend/BtrfsManager.ts:78-121 | btrfsOk iff `which btrfs` exits 0; otherwise nothing more is run and the result is all false, zero space, with the error message; otherwise the show and df commands are run in order, the subvolume flags are exactly "exited 0" and the space is the df figures when present |
| Btrfs.BtrfsManager.ListSnapshots | src/backend/BtrfsManager.ts:123-171 | one elevated list command; a nonzero exit gives no snapshots, otherwise the sorted records of the output; always newest first |
| Btrfs.BtrfsManager.CreateSnapshot | src/backend/BtrfsManager.ts:173-252 | two mkdirs whose failures only add warnings (unless the error says the file exists), then the root snapshot; on its failure nothing more is run and no name is reported; otherwise the home snapshot; its failure reports the root name and the home error; ok only when both succeed; the exact log lines of each path |
| Btrfs.BtrfsManager.RestoreSnapshot | src/backend/BtrfsManager.ts:254-315 | get-default (its failure only omits a log line), then set-default; a failing set-default gives not ok, an empty note and its stderr; success gives the note; no delete is issued |
| Btrfs.BtrfsManager.DeleteSnapshot | src/backend/BtrfsManager.ts:317-335 | one elevated delete; ok iff it exits 0, else its stderr is the error |
| FileStore.Utf8Length | src/backend/Logger.ts:24 | the size `statSync` reports: between the number of characters and four times it |
| FileStore.Utf8LengthAppend | src/backend/Logger.ts:45 | the size of appended text is the sum of the sizes |
| FileStore.Appended | src/backend/Logger.ts:45 | appending extends the file (an absent one counts as empty) unless its path fails, and touches no other file |
| FileStore.FileSystem.Write | src/backend/TimersManager.ts:188 | replaces the file's contents, or throws with the path's fault and changes nothing |
| FileStore.FileSystem.Append | src/backend/Logger.ts:45 | the files become the appended files; an error iff the path fails |
| FileStore.FileSystem.Unlink | src/backend/Logger.ts:28 | removes the file; throws on a faulty or a missing path, changing nothing |
| FileStore.FileSystem.Rename | src/backend/Logger.ts:30 | moves the contents to the new path, replacing what was there; throws when either path fails or the source is missing, changing nothing |
| Logging.Entry | src/backend/Logger.ts:41-42 | an entry is `[ts] [LEVEL] message`, then a line break and the data only when there is data, and ends with a line break |
| Logging.Logged | src/backend/Logger.ts:38-45 | the files after `log`: rotation first, then the entry appended (`Logging.RotateThenAppend`, `Logging.LogStaysBounded`) |
| Logging.LogsOf | src/backend/Logger.ts:65-74 | what `getLogs` returns: the current log, or the empty text when it is absent or unreadable (`Logging.LogsIgnoreBackup`) |
| Logging.Rotated | src/backend/Logger.ts:21-36 | when the log exists and its size is strictly above 5 MiB, the log becomes the only backup (the previous backup is lost) unless the backup path fails; otherwise nothing changes; no other file is touched |
| Logging.Cleared | src/backend/Logger.ts:76-84 | clearing removes only the current log |
| Logging.RotateThenAppend | src/backend/Logger.ts:38-45 | after a call that rotated, the current log holds exactly the new entry and the backup the old log; otherwise the log is the old contents followed by the entry |
| Logging.LogStaysBounded | src/backend/Logger.ts:21-45 | with a replaceable backup, a log at most the limit plus one entry stays so after each log call |
| Logging.LogsIgnoreBackup | src/backend/Logger.ts:65-84 | what `getLogs` reads never depends on the backup, and after clearing it reads the empty text |
| Logging.Logger.RotateIfNeeded | src/backend/Logger.ts:21-36 | the files become the rotated files; no failure escapes |
| Logging.Logger.Log | src/backend/Logger.ts:38-51 | rotates, then appends the entry; no failure escapes |
| Logging.Logger.Info | src/backend/Logger.ts:53-55 | logs at level INFO |
| Logging.Logger.Warn | src/backend/Logger.ts:57-59 | logs at level WARN |
| Logging.Logger.Error | src/backend/Logger.ts:61-63 | logs at level ERROR |
| Logging.Logger.GetLogs | src/backend/Logger.ts:65-74 | the current log's contents, or the empty text when it is absent or unreadable |
| Logging.Logger.ClearLogs | src/backend/Logger.ts:76-84 | only the current log is removed, and reading afterwards gives the empty text |
| Units.OnCalendarValue | src/backend/TimersManager.ts:59-70 | `hourly`, `daily` and `weekly` map to the same keyword; anything else gives `daily` |
| Units.Script | src/backend/TimersManager.ts:72-109 | the text of `generateScript`: header with the three variables, the root and home snapshot steps, the retention block and the closing line (its order stated by `UnitFacts.ScriptStepOrder`, `UnitFacts.ScriptRetentionChoice`) |
| Units.RetentionBlock | src/backend/TimersManager.ts:105 | the count block when the retention type is `count`, the age block otherwise (`UnitFacts.ChosenBlock`) |
| Units.CountRetention | src/backend/TimersManager.ts:111-129 | the text of `generateCountRetention` (`UnitFacts.CountBlockKeepsNewest`, `UnitFacts.CountBlockOpening`) |
| Units.AgeRetention | src/backend/TimersManager.ts:131-141 | the text of `generateAgeRetention` (`UnitFacts.AgeBlockFindsOlder`, `UnitFacts.AgeBlockOpening`) |
| Units.ServiceFile | src/backend/TimersManager.ts:143-157 | the text of `generateServiceFile`, its lines joined by line breaks (`UnitFacts.ServiceFileSettings`) |
| Units.TimerFile | src/backend/TimersManager.ts:159-171 | the text of `generateTimerFile`, its lines joined by line breaks (`UnitFacts.TimerFileSettings`) |
| UnitFacts.SnapshotStepsOrder | src/backend/TimersManager.ts:84-102 | the snapshot steps hold the root command, then the `exit 1` of its failure branch, then the home command |
| UnitFacts.StepsAround | src/backend/TimersManager.ts:72-108 | those positions hold in the whole script, whatever the header and the retention block |
| UnitFacts.ScriptStepOrder | src/backend/TimersManager.ts:72-108 | in the script the root snapshot command comes first, then its `exit 1`, and only then the home snapshot command |
| UnitFacts.CountBlockOpening | src/backend/TimersManager.ts:111-113 | the count block opens with the common retention announcement followed by `c` (of `cantidad`) |
| UnitFacts.AgeBlockOpening | src/backend/TimersManager.ts:131-133 | the age block opens with the same announcement followed by `e` (of `edad`) |
| UnitFacts.BlocksExclude | src/backend/TimersManager.ts:111-141 | wherever the count block occurs the age block does not, and the other way round |
| UnitFacts.ChosenBlock | src/backend/TimersManager.ts:105 | wherever the retention block occurs, the count block occurs there iff the retention type is `count`, and the age block iff it is not |
| UnitFacts.BlockAfterSteps | src/backend/TimersManager.ts:104-107 | in the script the retention block starts right where the snapshot steps end |
| UnitFacts.ScriptRetentionChoice | src/backend/TimersManager.ts:105 | after the snapshot steps the script holds the count block iff the retention type is `count`, and the age block iff it is not |
| UnitFacts.CleanupSelects | src/backend/TimersManager.ts:115-120 | each count cleanup holds its selector pipeline and, after its loop head, the delete of each selected name under its target |
| UnitFacts.CountBlockKeepsNewest | src/backend/TimersManager.ts:111-129 | the count block selects and deletes, for root and home each under its own target, the matches beyond the `count` newest |
| UnitFacts.SelectorPipelineOrder | src/backend/TimersManager.ts:116 | in the selector the prefix-and-kind filter comes first, then `sort -r`, then `tail -n +$((count + 1))` |
| UnitFacts.AgeBlockFindsOlder | src/backend/TimersManager.ts:131-141 | the age block runs one `find` per target with its own prefix and kind, each with `-mtime +days` |
| UnitFacts.FindShowsAge | src/backend/TimersManager.ts:136 | each `find` command holds `-mtime +days` |
| UnitFacts.RetentionNumbersReadBack | src/backend/TimersManager.ts:116-136 | the count appears in decimal inside `tail -n +$((count + 1))` and the days right after `-mtime +`, each reading back as the number |
| UnitFacts.FirstSettingAt | src/backend/TimersManager.ts:143-171 | the setting read is the value of the first line assigning the key |
| UnitFacts.AssignmentReads | src/backend/TimersManager.ts:143-171 | a `key=value` line assigns `key` and reads back as `value` |
| UnitFacts.NotTheSetting | src/backend/TimersManager.ts:143-171 | a blank line, a section header or a line assigning another key does not assign the key |
| UnitFacts.SettingOfLines | src/backend/TimersManager.ts:143-171 | a unit joined from lines without line breaks has the settings of those lines |
| UnitFacts.ServiceLinesOneEach | src/backend/TimersManager.ts:143-157 | each line of the service unit is one line |
| UnitFacts.ServiceLinesSettings | src/backend/TimersManager.ts:143-157 | the first `ExecStart=` line gives the script path and the first `Type=` line `oneshot` |
| UnitFacts.ServiceFileSettings | src/backend/TimersManager.ts:143-157 | the service unit, read back, runs the script path and is `oneshot` |
| UnitFacts.TimerLinesOneEach | src/backend/TimersManager.ts:159-171 | each line of the timer unit is one line |
| UnitFacts.TimerLinesSettings | src/backend/TimersManager.ts:159-171 | the timer lines assign the calendar keyword, `Persistent=true` and the service unit |
| UnitFacts.TimerFileSettings | src/backend/TimersManager.ts:159-171 | the timer unit, read back, fires on the schedule's calendar keyword, is persistent and requires the service unit |
| Timers.InstallPathsDistinct | src/backend/TimersManager.ts:29-33 | the script and the two unit files are three different paths under one home |
| Timers.InstalledUnitsReadBack | src/backend/TimersManager.ts:186-198 | after a full installation the script file holds the script, the service unit runs that script once per activation, the timer fires on the schedule for that service, and no other file changed |
| Timers.RunsOf | src/backend/TimersManager.ts:271-278 | the next and last runs read from the columns of one `list-timers` row (`Timers.ListRowRuns`) |
| Timers.TimerRuns | src/backend/TimersManager.ts:268-281 | the runs of the first row naming the timer, none when no row does (`Timers.TimerRunsFirstMatch`, `Timers.TimerRunsNoMatch`) |
| Timers.ScanTimerList | src/backend/TimersManager.ts:268-281 | the loop with its `break` yields the runs of the first listing line that names the timer |
| Timers.TimerRunsFirstMatch | src/backend/TimersManager.ts:268-281 | the runs are those of the first line naming the timer |
| Timers.TimerRunsNoMatch | src/backend/TimersManager.ts:268-281 | a listing that never names the timer gives neither run |
| Timers.ListRowRuns | src/backend/TimersManager.ts:271-278 | a row of blank-separated columns gives the next run from its first two columns when it has two, and the last run from the next two when it has four |
| Timers.ListTimersReadBack | src/backend/TimersManager.ts:266-281 | a listing whose first row naming the timer is such a row, joined with any other lines, reads back as that row's runs |
| Timers.TimersManager.constructor | src/backend/TimersManager.ts:29-33 | the unit directory and the script path hang off the home directory |
| Timers.TimersManager.Enable | src/backend/TimersManager.ts:173-223 | writes the script, the service and the timer in order, and the first failing write is the error, with nothing run; then daemon-reload (its result ignored), then enable; a failing enable gives `Error habilitando timer: ` plus its stderr and start is not issued; a failing start gives `Error iniciando timer: ` plus its stderr; ok iff both succeed |
| Timers.TimersManager.Disable | src/backend/TimersManager.ts:225-245 | stop, then disable; ok whatever their exit codes |
| Timers.TimersManager.GetStatus | src/backend/TimersManager.ts:247-287 | is-enabled, is-active, status and list-timers in that order; enabled iff the trimmed answer is `enabled`, active iff it is `active`, the status text as returned, and the runs from the listing |
| Config.Merge | src/backend/ConfigManager.ts:58-69 | the shallow spread `{ ...base, ...p }`: each key given replaces the base value whole (`Config.MergeKeys`, `Config.MergeThen`) |
| Config.ConfigOf | src/backend/ConfigManager.ts:21-64 | what `getConfig` returns: `Config.Defaults` (the `defaultConfig` of lines 21-41) overridden by the stored object's keys, or the defaults alone when no object can be read (`Config.DefaultsWithoutObject`) |
| Config.MergeKeys | src/backend/ConfigManager.ts:58 | each top-level key of the merge comes from the override when it has it and from the base otherwise |
| Config.MergeExtremes | src/backend/ConfigManager.ts:58-70 | an empty override changes nothing, a full one replaces everything, and a written configuration reads back as itself |
| Config.MergeIdempotent | src/backend/ConfigManager.ts:68-69 | setting the same keys twice stores what setting them once stores |
| Config.MergeThen | src/backend/ConfigManager.ts:68-69 | two successive sets are one set of the combined keys, the later winning |
| Config.TimerReplacedWhole | src/backend/ConfigManager.ts:58 | a stored timer replaces the whole default timer record (shallow merge) |
| Config.DefaultsWithoutObject | src/backend/ConfigManager.ts:21-63 | without a readable object the defaults are read: timer disabled, retention count 7 |
| Config.ConfigManager.constructor | src/backend/ConfigManager.ts:43-46 | the configuration path is under `$XDG_CONFIG_HOME` when set and not empty, else under `$HOME/.config` |
| Config.ConfigManager.GetConfig | src/backend/ConfigManager.ts:54-64 | the defaults overridden by the stored object's keys; the defaults when the file is absent, unreadable, not parseable or not an object |
| Config.ConfigManager.SetConfig | src/backend/ConfigManager.ts:66-76 | true iff the write succeeds, storing the current configuration overridden by the keys given (all keys written); on failure the file is unchanged; when the file is readable, reading back gives the merged configuration (an unreadable file reads back as the defaults, as `getConfig` returns them) |
| Config.ConfigManager.ResetConfig | src/backend/ConfigManager.ts:78-86 | returns the defaults whether or not the write succeeds; a successful write stores them, so reading back gives the defaults |

## Left out

- **Logger calls from the other classes.** The logging that BtrfsManager and TimersManager do, including `execCommand`'s own log lines, is left out. Those calls only append text to the log and never change a result. The Logger itself is modelled.
- **Console output.** `console.log` and `console.error` are output only.
- **Directory creation.** The `mkdirSync` calls in `enable`, in the ConfigManager constructor and in the Logger constructor are left out, because the file store has no directories. A failing write stands for any failure there.
- **Dates.** `new Date(text)`, `new Date()` and `toISOString` are parameters. An invalid date, and the NaN comparisons it would bring into the sort, are not modelled: timestamps are integers. One clock reading stands for every `new Date()` of a listing: all unstamped lines get the same timestamp, so those records tie and keep their listing order in the stable sort, whereas the source reads the clock once per line and a later millisecond would sort a later line first.
- **Path normalisation.** `path.join` is modelled as concatenation with `/`. The normalisation of `.`, `..` and doubled or trailing separators is not modelled.
- **JSON.** `JSON.stringify` of the log data and of the configuration, and `JSON.parse`, are not modelled:
  - log data is its serialised text;
  - the configuration file is the document it denotes;
  - keys other than the five known ones, values of the wrong type, explicitly `undefined` values, and a string spread as an object are not modelled.
- **Number formatting.** Retention values that are not integers (JavaScript would print them as decimals) are not modelled; the number is an `int`, written in full decimal digits by `IntToString`. JavaScript writes integers of magnitude 1e21 and above in exponent form, and integers beyond 2^53 lose precision; neither is modelled.
- **Script semantics.** What the generated script does when it runs is not modelled: only its text.
- **File modes.** The `0o755` mode of the script is not modelled.
- **Exceptions.** The `catch` branches of BtrfsManager and of `getStatus` are not modelled, because the runner never throws and nothing else in those `try` blocks can. So the initial `desconocido` status of `getStatus` is never returned. The catch of `enable` is modelled through the failing writes and the two command errors.
- Listing.ParseListing: takes one clock reading `now` for all unstamped lines instead of one per line, so their relative order after the sort is the listing order (see **Dates**).
- Btrfs.BtrfsManager.ListSnapshots: passes that single clock reading to the parser, with the same consequence.
- UnitFacts.ScriptRetentionChoice: it only places the chosen block after the snapshot steps. It does not prove that the unchosen block appears nowhere else in the script.
- **Process spawning.** The async event machinery of process spawning is replaced by the oracle. A process that emits both `error` and `close` is settled by the first event, as the promise is.
