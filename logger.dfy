/** The application log, class Logger of src/backend/Logger.ts: one current
    log file and at most one backup beside it (`<log>.old`), rotated when
    the current log has grown past 5 MiB. Every operation swallows the
    filesystem's errors. */
module Logging {
  import opened Wrappers
  import opened FileStore

  /** `maxLogSize`, in bytes. */
  const MaxLogSize: nat := 5 * 1024 * 1024

  datatype Level = Info | Warn | Error

  function LevelName(level: Level): string {
    match level
    case Info => "INFO"
    case Warn => "WARN"
    case Error => "ERROR"
  }

  /** One log entry: `[timestamp] [LEVEL] message`, then the serialised data
      on lines of its own when there is any (`data` is truthy), then a line
      break. */
  function Entry(timestamp: string, level: Level, message: string, data: Option<string>): (r: string)
    ensures |r| >= 1 && r[|r| - 1] == '\n'
    ensures var head := "[" + timestamp + "] [" + LevelName(level) + "] " + message;
      |head| < |r| && r[..|head|] == head
      && (data.None? ==> r == head + "\n")
      && (data.Some? ==> r[|head|..] == "\n" + data.value + "\n")
  {
    "[" + timestamp + "] [" + LevelName(level) + "] " + message
      + (if data.Some? then "\n" + data.value else "") + "\n"
  }

  function BackupPath(logPath: string): string {
    logPath + ".old"
  }

  /** The log is rotated only when it exists, can be inspected, and is
      strictly larger than the limit. */
  predicate NeedsRotation(files: map<string, string>, faults: map<string, string>, logPath: string) {
    logPath in files && logPath !in faults && Utf8Length(files[logPath]) > MaxLogSize
  }

  /** The files after `rotateLogIfNeeded`: the oversized log becomes the only
      backup (replacing the previous one) unless the backup path fails, and
      no other file is touched. */
  function Rotated(files: map<string, string>, faults: map<string, string>, logPath: string)
    : (r: map<string, string>)
    ensures NeedsRotation(files, faults, logPath) && BackupPath(logPath) !in faults ==>
              logPath !in r && BackupPath(logPath) in r && r[BackupPath(logPath)] == files[logPath]
    ensures !NeedsRotation(files, faults, logPath) || BackupPath(logPath) in faults ==> r == files
    ensures forall p :: p != logPath && p != BackupPath(logPath) ==>
              (p in r <==> p in files) && (p in r ==> r[p] == files[p])
  {
    var backup := BackupPath(logPath);
    assert backup != logPath by { assert |backup| != |logPath|; }
    if NeedsRotation(files, faults, logPath) && backup !in faults
    then (files - {logPath})[backup := files[logPath]]
    else files
  }

  /** The files after `log`: rotation first, then the entry appended. */
  function Logged(files: map<string, string>, faults: map<string, string>, logPath: string, entry: string)
    : map<string, string>
  {
    Appended(Rotated(files, faults, logPath), faults, logPath, entry)
  }

  /** The files after `clearLogs`: the current log is removed, the backup
      kept. */
  function Cleared(files: map<string, string>, faults: map<string, string>, logPath: string)
    : (r: map<string, string>)
    ensures logPath !in faults ==> logPath !in r
    ensures forall p :: p != logPath ==> (p in r <==> p in files) && (p in r ==> r[p] == files[p])
  {
    if logPath in files && logPath !in faults then files - {logPath} else files
  }

  /** What `getLogs` returns: the current log's contents, or the empty text
      when it is absent or unreadable. */
  function LogsOf(files: map<string, string>, faults: map<string, string>, logPath: string): string {
    if logPath in files && logPath !in faults then files[logPath] else ""
  }

  /** A log call that rotated leaves exactly the new entry in the current
      log and the old log as the backup; one that did not rotate appends
      the entry to what was there. */
  lemma RotateThenAppend(files: map<string, string>, faults: map<string, string>, logPath: string, entry: string)
    requires logPath !in faults
    ensures var r := Logged(files, faults, logPath, entry);
      (NeedsRotation(files, faults, logPath) && BackupPath(logPath) !in faults ==>
         LogsOf(r, faults, logPath) == entry && r[BackupPath(logPath)] == files[logPath])
      && (!NeedsRotation(files, faults, logPath) ==>
         LogsOf(r, faults, logPath) == LogsOf(files, faults, logPath) + entry)
  {
    var backup := BackupPath(logPath);
    assert backup != logPath by { assert |backup| != |logPath|; }
  }

  /** The current log is bounded by the limit plus one entry: if it was
      before a log call, it is after, as long as the backup can be
      replaced. */
  lemma LogStaysBounded(files: map<string, string>, faults: map<string, string>, logPath: string, entry: string, slack: nat)
    requires BackupPath(logPath) !in faults
    requires Utf8Length(entry) <= slack
    requires logPath in files ==> Utf8Length(files[logPath]) <= MaxLogSize + slack
    ensures var r := Logged(files, faults, logPath, entry);
      logPath in r ==> Utf8Length(r[logPath]) <= MaxLogSize + slack
  {
    var rotated := Rotated(files, faults, logPath);
    if logPath !in faults {
      Utf8LengthAppend(Contents(rotated, logPath), entry);
    }
  }

  /** The backup is never read back, and clearing leaves nothing to read
      while keeping the backup. */
  lemma LogsIgnoreBackup(files: map<string, string>, faults: map<string, string>, logPath: string, backup: string)
    requires logPath !in faults
    ensures LogsOf(files[BackupPath(logPath) := backup], faults, logPath) == LogsOf(files, faults, logPath)
    ensures LogsOf(Cleared(files, faults, logPath), faults, logPath) == ""
  {
    assert BackupPath(logPath) != logPath by { assert |BackupPath(logPath)| != |logPath|; }
  }

  class Logger {
    const fs: FileSystem
    const logPath: string

    constructor (fs: FileSystem, logPath: string)
      ensures this.fs == fs && this.logPath == logPath
    {
      this.fs := fs;
      this.logPath := logPath;
    }

    method RotateIfNeeded()
      modifies fs
      ensures fs.files == Rotated(old(fs.files), fs.faults, logPath)
    {
      if fs.Exists(logPath) {
        var stats := fs.Size(logPath);
        if stats.None? {
          return;
        }
        if stats.value > MaxLogSize {
          var backupPath := logPath + ".old";
          assert backupPath != logPath by { assert |backupPath| != |logPath|; }
          if fs.Exists(backupPath) {
            var unlinkError := fs.Unlink(backupPath);
            if unlinkError.Some? {
              return;
            }
          }
          var renameError := fs.Rename(logPath, backupPath);
        }
      }
    }

    /** Rotates, then appends one entry stamped `timestamp` (the instant's
        ISO text). */
    method Log(level: Level, message: string, data: Option<string>, timestamp: string)
      modifies fs
      ensures fs.files == Logged(old(fs.files), fs.faults, logPath, Entry(timestamp, level, message, data))
    {
      RotateIfNeeded();
      var logEntry := "[" + timestamp + "] [" + LevelName(level) + "] " + message
        + (if data.Some? then "\n" + data.value else "") + "\n";
      var appendError := fs.Append(logPath, logEntry);
    }

    method Info(message: string, data: Option<string>, timestamp: string)
      modifies fs
      ensures fs.files == Logged(old(fs.files), fs.faults, logPath, Entry(timestamp, Level.Info, message, data))
    {
      Log(Level.Info, message, data, timestamp);
    }

    method Warn(message: string, data: Option<string>, timestamp: string)
      modifies fs
      ensures fs.files == Logged(old(fs.files), fs.faults, logPath, Entry(timestamp, Level.Warn, message, data))
    {
      Log(Level.Warn, message, data, timestamp);
    }

    method Error(message: string, data: Option<string>, timestamp: string)
      modifies fs
      ensures fs.files == Logged(old(fs.files), fs.faults, logPath, Entry(timestamp, Level.Error, message, data))
    {
      Log(Level.Error, message, data, timestamp);
    }

    /** `getLogs` */
    function GetLogs(): (r: string)
      reads fs
      ensures r == LogsOf(fs.files, fs.faults, logPath)
    {
      if fs.Exists(logPath) && fs.Read(logPath).Some? then fs.Read(logPath).value else ""
    }

    method ClearLogs()
      modifies fs
      ensures fs.files == Cleared(old(fs.files), fs.faults, logPath)
      ensures GetLogs() == ""
    {
      if fs.Exists(logPath) {
        var unlinkError := fs.Unlink(logPath);
      }
    }
  }
}
