/** The scheduled-snapshot installer, class TimersManager of
    src/backend/TimersManager.ts: it writes the snapshot script and the two
    systemd user units, then enables and starts the timer through
    `systemctl --user`; it also stops and disables the timer and reports
    its state.

    The commands run through the same oracle runner as BtrfsManager, never
    elevated (this class's `execCommand` has no pkexec branch and settles
    the same way). The files go through the modelled file store; the
    directories `mkdirSync` creates are not modelled. */
module Timers {
  import opened Wrappers
  import opened Text
  import opened Process
  import opened FileStore
  import opened Units
  import opened UnitFacts

  /** What `enable` and `disable` resolve with. */
  datatype TimerResult = TimerResult(ok: bool, error: Option<string>)

  /** The next and the last activation read from `list-timers`, each as
      its first two columns (day and date) joined by one space. */
  datatype Runs = Runs(nextRun: Option<string>, lastRun: Option<string>)

  /** `TimerStatus` */
  datatype TimerStatus = TimerStatus(enabled: bool, active: bool, lastRun: Option<string>, nextRun: Option<string>, status: string)

  const EnableFailed: string := "Error habilitando timer: "
  const StartFailed: string := "Error iniciando timer: "

  // ---------------------------------------------------------------------------
  // Paths

  function SystemdDir(home: string): string {
    PathJoin(home, ".config/systemd/user")
  }

  function ScriptPathFor(home: string): string {
    PathJoin(home, ".local/bin/btrfs-snap.sh")
  }

  function ServicePath(systemdDir: string): string {
    PathJoin(systemdDir, ServiceUnit)
  }

  function TimerPath(systemdDir: string): string {
    PathJoin(systemdDir, TimerUnit)
  }

  /** The script and the two units land on three different files, whatever
      the home directory. */
  lemma InstallPathsDistinct(home: string)
    ensures var dir, script := SystemdDir(home), ScriptPathFor(home);
      ServicePath(dir) != TimerPath(dir) && script != ServicePath(dir) && script != TimerPath(dir)
  {
    var dir, script := SystemdDir(home), ScriptPathFor(home);
    assert |ServicePath(dir)| == |dir| + 1 + |ServiceUnit|;
    assert |TimerPath(dir)| == |dir| + 1 + |TimerUnit|;
  }

  // ---------------------------------------------------------------------------
  // The commands

  // `systemctl --user ...`, never elevated
  const DaemonReload: Invocation := Invocation("systemctl", ["--user", "daemon-reload"])
  const EnableTimer: Invocation := Invocation("systemctl", ["--user", "enable", TimerUnit])
  const StartTimer: Invocation := Invocation("systemctl", ["--user", "start", TimerUnit])
  const StopTimer: Invocation := Invocation("systemctl", ["--user", "stop", TimerUnit])
  const DisableTimer: Invocation := Invocation("systemctl", ["--user", "disable", TimerUnit])
  const IsEnabled: Invocation := Invocation("systemctl", ["--user", "is-enabled", TimerUnit])
  const IsActive: Invocation := Invocation("systemctl", ["--user", "is-active", TimerUnit])
  const ShowStatus: Invocation := Invocation("systemctl", ["--user", "status", TimerUnit])
  const ListTimers: Invocation := Invocation("systemctl", ["--user", "list-timers", "--all"])

  // ---------------------------------------------------------------------------
  // The installed files

  /** The files once the script, the service unit and the timer unit are
      written, in that order. */
  function Installed(files: map<string, string>, scriptPath: string, systemdDir: string,
                     config: TimerConfig, rootTarget: string, homeTarget: string, prefix: string)
    : map<string, string>
  {
    files[scriptPath := Script(rootTarget, homeTarget, prefix, config.retention)]
         [ServicePath(systemdDir) := ServiceFile(scriptPath)]
         [TimerPath(systemdDir) := TimerFile(config.schedule)]
  }

  /** After a complete installation on three distinct paths, the script
      holds the generated script, systemd reads the service as running that
      script once per activation, and the timer as firing on the schedule's
      calendar keyword for that service; nothing else changed. */
  lemma InstalledUnitsReadBack(files: map<string, string>, scriptPath: string, systemdDir: string,
                               config: TimerConfig, rootTarget: string, homeTarget: string, prefix: string)
    requires '\n' !in scriptPath
    requires scriptPath != ServicePath(systemdDir) && scriptPath != TimerPath(systemdDir)
    ensures var r := Installed(files, scriptPath, systemdDir, config, rootTarget, homeTarget, prefix);
      r[scriptPath] == Script(rootTarget, homeTarget, prefix, config.retention)
      && Setting(r[ServicePath(systemdDir)], "ExecStart") == Some(scriptPath)
      && Setting(r[ServicePath(systemdDir)], "Type") == Some("oneshot")
      && Setting(r[TimerPath(systemdDir)], "OnCalendar") == Some(OnCalendarValue(config.schedule))
      && Setting(r[TimerPath(systemdDir)], "Requires") == Some(ServiceUnit)
      && (forall p :: p != scriptPath && p != ServicePath(systemdDir) && p != TimerPath(systemdDir) ==>
            (p in r <==> p in files) && (p in r ==> r[p] == files[p]))
  {
    var servicePath, timerPath := ServicePath(systemdDir), TimerPath(systemdDir);
    assert |servicePath| != |timerPath|;
    ThreeWrites(files, scriptPath, Script(rootTarget, homeTarget, prefix, config.retention),
      servicePath, ServiceFile(scriptPath), timerPath, TimerFile(config.schedule));
    ServiceFileSettings(scriptPath);
    TimerFileSettings(config.schedule);
  }

  /** Three writes to three distinct paths each leave their own text. */
  lemma ThreeWrites(files: map<string, string>, a: string, x: string, b: string, y: string, c: string, z: string)
    requires a != b && a != c && b != c
    ensures var r := files[a := x][b := y][c := z];
      r[a] == x && r[b] == y && r[c] == z
      && (forall p :: p != a && p != b && p != c ==> (p in r <==> p in files) && (p in r ==> r[p] == files[p]))
  {
  }

  // ---------------------------------------------------------------------------
  // Reading `systemctl --user list-timers --all`

  /** The runs one listing row shows: the first two whitespace-separated
      fields of the trimmed row when there are two, the next two when there
      are four. */
  function RunsOf(line: string): Runs {
    var parts := SplitWs(Trim(line));
    Runs(if |parts| >= 2 then Some(parts[0] + " " + parts[1]) else None,
         if |parts| >= 4 then Some(parts[2] + " " + parts[3]) else None)
  }

  /** The runs of the first line naming the timer unit; none when no line
      does. */
  function TimerRuns(lines: seq<string>): Runs {
    if |lines| == 0 then Runs(None, None)
    else if Contains(lines[0], TimerUnit) then RunsOf(lines[0])
    else TimerRuns(lines[1..])
  }

  /** The scan of `getStatus`: the first line that names the timer decides
      both runs, and the scan stops there. */
  method ScanTimerList(stdout: string) returns (runs: Runs)
    ensures runs == TimerRuns(Split(stdout, '\n'))
  {
    var lines := Split(stdout, '\n');
    runs := Runs(None, None);
    var i := 0;
    while i < |lines|
      invariant 0 <= i <= |lines|
      invariant TimerRuns(lines) == TimerRuns(lines[i..])
      invariant runs == Runs(None, None)
    {
      var line := lines[i];
      if Contains(line, TimerUnit) {
        var parts := SplitWs(Trim(line));
        if |parts| >= 2 {
          runs := runs.(nextRun := Some(parts[0] + " " + parts[1]));
        }
        if |parts| >= 4 {
          runs := runs.(lastRun := Some(parts[2] + " " + parts[3]));
        }
        break;
      }
      assert lines[i..][1..] == lines[i + 1..];
      i := i + 1;
    }
  }

  /** The runs are those of the first line naming the timer. */
  lemma {:induction false} TimerRunsFirstMatch(lines: seq<string>, i: nat)
    requires i < |lines| && Contains(lines[i], TimerUnit)
    requires forall j :: 0 <= j < i ==> !Contains(lines[j], TimerUnit)
    ensures TimerRuns(lines) == RunsOf(lines[i])
    decreases i
  {
    if i > 0 {
      assert !Contains(lines[0], TimerUnit);
      assert lines[1..][i - 1] == lines[i];
      TimerRunsFirstMatch(lines[1..], i - 1);
    }
  }

  /** A listing that never names the timer reports no runs. */
  lemma {:induction false} TimerRunsNoMatch(lines: seq<string>)
    requires forall j :: 0 <= j < |lines| ==> !Contains(lines[j], TimerUnit)
    ensures TimerRuns(lines) == Runs(None, None)
  {
    if |lines| > 0 {
      assert !Contains(lines[0], TimerUnit);
      TimerRunsNoMatch(lines[1..]);
    }
  }

  /** A row of non-empty columns separated by white space, with any white
      space around it, reads back as its first two and next two columns. */
  lemma ListRowRuns(pre: string, fields: seq<string>, gap: string, post: string)
    requires AllSpace(pre) && AllSpace(post)
    requires |fields| >= 1
    requires forall k :: 0 <= k < |fields| ==> fields[k] != [] && NoSpace(fields[k])
    requires gap != [] && AllSpace(gap)
    ensures RunsOf(pre + Join(fields, gap) + post)
      == Runs(if |fields| >= 2 then Some(fields[0] + " " + fields[1]) else None,
              if |fields| >= 4 then Some(fields[2] + " " + fields[3]) else None)
  {
    var row := Join(fields, gap);
    JoinFirstChar(fields, gap);
    JoinLastPart(fields, gap);
    var last := fields[|fields| - 1];
    assert row[|row| - 1] == last[|last| - 1] by {
      assert row[|row| - |last|..][|last| - 1] == last[|last| - 1];
    }
    TrimPadded(pre, row, post);
    JoinSplitWs(fields, gap);
  }

  /** The listing read back: in output whose lines before the timer's row
      do not name the timer, the row whose columns include the unit name
      gives its first two and next two columns as the next and last run,
      whatever the lines after. */
  lemma ListTimersReadBack(before: seq<string>, pre: string, fields: seq<string>, gap: string, post: string,
                           after: seq<string>, unitColumn: nat)
    requires forall k :: 0 <= k < |before| ==> '\n' !in before[k] && !Contains(before[k], TimerUnit)
    requires forall k :: 0 <= k < |after| ==> '\n' !in after[k]
    requires AllSpace(pre) && AllSpace(post) && '\n' !in pre && '\n' !in post
    requires forall k :: 0 <= k < |fields| ==> fields[k] != [] && NoSpace(fields[k])
    requires gap != [] && AllSpace(gap) && '\n' !in gap
    requires unitColumn < |fields| && fields[unitColumn] == TimerUnit
    ensures var row := pre + Join(fields, gap) + post;
      TimerRuns(Split(Join(before + [row] + after, "\n"), '\n'))
      == Runs(if |fields| >= 2 then Some(fields[0] + " " + fields[1]) else None,
              if |fields| >= 4 then Some(fields[2] + " " + fields[3]) else None)
  {
    var row := pre + Join(fields, gap) + post;
    var lines := before + [row] + after;
    forall k | 0 <= k < |fields|
      ensures '\n' !in fields[k]
    {
      assert IsSpace('\n');
    }
    JoinAvoids(fields, gap, '\n');
    forall k | 0 <= k < |lines|
      ensures '\n' !in lines[k]
    {
      if k > |before| {
        assert lines[k] == after[k - |before| - 1];
      }
    }
    JoinSplit(lines, '\n');
    JoinHasPart(fields, gap, unitColumn);
    var i :| 0 <= i <= |Join(fields, gap)| - |TimerUnit| && OccursAt(Join(fields, gap), TimerUnit, i);
    OccursShift(pre, Join(fields, gap), TimerUnit, i);
    OccursExtend(pre + Join(fields, gap), post, TimerUnit, |pre| + i);
    TimerRunsFirstMatch(lines, |before|);
    ListRowRuns(pre, fields, gap, post);
  }

  // ---------------------------------------------------------------------------
  // The manager

  class TimersManager {
    const runner: Runner
    const fs: FileSystem
    const systemdDir: string
    const scriptPath: string

    /** Both locations hang off the home directory `home` (`$HOME`, or the
        empty text when unset). */
    constructor (runner: Runner, fs: FileSystem, home: string)
      ensures this.runner == runner && this.fs == fs
      ensures systemdDir == SystemdDir(home) && scriptPath == ScriptPathFor(home)
    {
      this.runner := runner;
      this.fs := fs;
      systemdDir := PathJoin(home, ".config/systemd/user");
      scriptPath := PathJoin(home, ".local/bin/btrfs-snap.sh");
    }

    /** Writes the script, the service unit and the timer unit (stopping at
        the first write that throws, with its message), reloads systemd,
        then enables the timer and, only if that succeeded, starts it. */
    method Enable(config: TimerConfig, rootTarget: string, homeTarget: string, prefix: string)
      returns (result: TimerResult)
      modifies runner, fs
      ensures var script := Script(rootTarget, homeTarget, prefix, config.retention);
        var servicePath, timerPath := ServicePath(systemdDir), TimerPath(systemdDir);
        var f0 := old(fs.files);
        var f1 := f0[scriptPath := script];
        var f2 := f1[servicePath := ServiceFile(scriptPath)];
        (scriptPath in fs.faults ==>
           fs.files == f0 && runner.trace == old(runner.trace)
           && result == TimerResult(false, Some(fs.faults[scriptPath])))
        && (scriptPath !in fs.faults && servicePath in fs.faults ==>
              fs.files == f1 && runner.trace == old(runner.trace)
              && result == TimerResult(false, Some(fs.faults[servicePath])))
        && (scriptPath !in fs.faults && servicePath !in fs.faults && timerPath in fs.faults ==>
              fs.files == f2 && runner.trace == old(runner.trace)
              && result == TimerResult(false, Some(fs.faults[timerPath])))
      ensures var servicePath, timerPath := ServicePath(systemdDir), TimerPath(systemdDir);
        var t2 := old(runner.trace) + [DaemonReload] + [EnableTimer];
        var t3 := t2 + [StartTimer];
        scriptPath !in fs.faults && servicePath !in fs.faults && timerPath !in fs.faults ==>
          fs.files == Installed(old(fs.files), scriptPath, systemdDir, config, rootTarget, homeTarget, prefix)
          && (runner.Reply(t2).code != 0 ==>
                runner.trace == t2 && result == TimerResult(false, Some(EnableFailed + runner.Reply(t2).stderr)))
          && (runner.Reply(t2).code == 0 ==>
                runner.trace == t3
                && (runner.Reply(t3).code != 0 ==> result == TimerResult(false, Some(StartFailed + runner.Reply(t3).stderr)))
                && (runner.Reply(t3).code == 0 ==> result == TimerResult(true, None)))
      ensures result.ok <==> result.error.None?
    {
      var script := Script(rootTarget, homeTarget, prefix, config.retention);
      var err := fs.Write(scriptPath, script);
      if err.Some? {
        return TimerResult(false, err);
      }
      var serviceContent := ServiceFile(scriptPath);
      var servicePath := PathJoin(systemdDir, ServiceUnit);
      err := fs.Write(servicePath, serviceContent);
      if err.Some? {
        return TimerResult(false, err);
      }
      var timerContent := TimerFile(config.schedule);
      var timerPath := PathJoin(systemdDir, TimerUnit);
      err := fs.Write(timerPath, timerContent);
      if err.Some? {
        return TimerResult(false, err);
      }
      var reload := runner.Exec("systemctl", ["--user", "daemon-reload"], false);
      assert runner.trace == old(runner.trace) + [DaemonReload];
      var enableResult := runner.Exec("systemctl", ["--user", "enable", TimerUnit], false);
      assert runner.trace == old(runner.trace) + [DaemonReload] + [EnableTimer];
      if enableResult.code != 0 {
        return TimerResult(false, Some(EnableFailed + enableResult.stderr));
      }
      var startResult := runner.Exec("systemctl", ["--user", "start", TimerUnit], false);
      if startResult.code != 0 {
        return TimerResult(false, Some(StartFailed + startResult.stderr));
      }
      result := TimerResult(true, None);
    }

    /** Stops, then disables the timer; a failing disable is only logged,
        so the result is always ok. */
    method Disable() returns (result: TimerResult)
      modifies runner
      ensures runner.trace == old(runner.trace) + [StopTimer] + [DisableTimer]
      ensures result == TimerResult(true, None)
    {
      var stopResult := runner.Exec("systemctl", ["--user", "stop", TimerUnit], false);
      var disableResult := runner.Exec("systemctl", ["--user", "disable", TimerUnit], false);
      result := TimerResult(true, None);
    }

    /** Asks systemd whether the timer is enabled and active (each exactly
        when the trimmed answer is the word), takes the full status text,
        and reads the runs from the timer listing. */
    method GetStatus() returns (status: TimerStatus)
      modifies runner
      ensures var t1 := old(runner.trace) + [IsEnabled];
        var t2 := t1 + [IsActive];
        var t3 := t2 + [ShowStatus];
        var t4 := t3 + [ListTimers];
        var runs := TimerRuns(Split(runner.Reply(t4).stdout, '\n'));
        runner.trace == t4
        && (status.enabled <==> Trim(runner.Reply(t1).stdout) == "enabled")
        && (status.active <==> Trim(runner.Reply(t2).stdout) == "active")
        && status.status == runner.Reply(t3).stdout
        && status.nextRun == runs.nextRun && status.lastRun == runs.lastRun
    {
      status := TimerStatus(false, false, None, None, "desconocido");
      var isEnabledResult := runner.Exec("systemctl", ["--user", "is-enabled", TimerUnit], false);
      status := status.(enabled := Trim(isEnabledResult.stdout) == "enabled");
      var isActiveResult := runner.Exec("systemctl", ["--user", "is-active", TimerUnit], false);
      status := status.(active := Trim(isActiveResult.stdout) == "active");
      var statusResult := runner.Exec("systemctl", ["--user", "status", TimerUnit], false);
      status := status.(status := statusResult.stdout);
      var listResult := runner.Exec("systemctl", ["--user", "list-timers", "--all"], false);
      var runs := ScanTimerList(listResult.stdout);
      status := status.(nextRun := runs.nextRun, lastRun := runs.lastRun);
    }
  }
}
