/** The snapshot orchestrator, class BtrfsManager of
    src/backend/BtrfsManager.ts. Each operation issues its commands through
    the runner in a fixed order, builds its result step by step and returns
    early on the failures the source returns early on. */
module Btrfs {
  import opened Wrappers
  import opened Text
  import opened Process
  import opened Listing

  datatype Space = Space(free: string, used: string, total: string)

  /** SystemCheck */
  datatype SystemCheck = SystemCheck(
    btrfsOk: bool, rootSubvol: bool, homeSubvol: bool, space: Space, error: Option<string>)

  /** SnapshotCreateResult */
  datatype CreateResult = CreateResult(
    ok: bool, logs: seq<string>, rootName: Option<string>, homeName: Option<string>, error: Option<string>)

  /** RestoreResult */
  datatype RestoreResult = RestoreResult(ok: bool, logs: seq<string>, note: string, error: Option<string>)

  /** What deleteSnapshot resolves with. */
  datatype DeleteResult = DeleteResult(ok: bool, error: Option<string>)

  const NoBtrfsMessage: string := "Btrfs no está instalado o no está disponible en el PATH"

  const ZeroSpace: Space := Space("0", "0", "0")

  // ---------------------------------------------------------------------------
  // The commands

  const Which: Invocation := Invocation("which", ["btrfs"])

  function ShowSubvolume(path: string): Invocation {
    Wrap("btrfs", ["subvolume", "show", path], true)
  }

  const DiskFree: Invocation := Invocation("df", ["-h", "/"])

  function ListSubvolumes(targetDir: string): Invocation {
    Wrap("btrfs", ["subvolume", "list", "-r", targetDir], true)
  }

  function MakeDir(dir: string): Invocation {
    Wrap("mkdir", ["-p", dir], true)
  }

  function SnapshotOf(source: string, dest: string): Invocation {
    Wrap("btrfs", ["subvolume", "snapshot", "-r", source, dest], true)
  }

  const GetDefault: Invocation := Wrap("btrfs", ["subvolume", "get-default", "/"], true)

  function SetDefault(path: string): Invocation {
    Wrap("btrfs", ["subvolume", "set-default", path], true)
  }

  function DeleteSubvolume(path: string): Invocation {
    Wrap("btrfs", ["subvolume", "delete", path], true)
  }

  // ---------------------------------------------------------------------------
  // df

  /** The figures of the second line of `df -h /`: its whitespace-separated
      columns 1, 2 and 3 are total, used and available. */
  function DfSpace(stdout: string): Option<Space> {
    var lines := Split(stdout, '\n');
    if |lines| > 1 then
      var parts := SplitWs(lines[1]);
      if |parts| >= 4 then Some(Space(parts[3], parts[2], parts[1])) else None
    else None
  }

  /** The space checkSystem reports for the reply to `df`. */
  function SpaceReported(r: CmdResult): Space {
    if r.code == 0 && DfSpace(r.stdout).Some? then DfSpace(r.stdout).value else ZeroSpace
  }

  /** A df report whose second line holds the filesystem, size, used and
      available columns (and any more) separated by blanks reports exactly
      those size, used and available figures, whatever the header and the
      lines after. */
  lemma DfReportRoundTrip(header: string, columns: seq<string>, gap: string, rest: string)
    requires '\n' !in header
    requires |columns| >= 4
    requires forall k :: 0 <= k < |columns| ==> columns[k] != [] && NoSpace(columns[k])
    requires gap != [] && AllSpace(gap) && '\n' !in gap
    ensures DfSpace(header + "\n" + Join(columns, gap) + "\n" + rest)
         == Some(Space(columns[3], columns[2], columns[1]))
  {
    var line := Join(columns, gap);
    forall k | 0 <= k < |columns|
      ensures '\n' !in columns[k]
    {
      assert IsSpace('\n');
    }
    JoinAvoids(columns, gap, '\n');
    SplitAfterPart(line, '\n', rest);
    SplitAfterPart(header, '\n', line + "\n" + rest);
    assert header + "\n" + line + "\n" + rest == header + ['\n'] + (line + ['\n'] + rest);
    JoinSplitWs(columns, gap);
  }

  /** Output with no second line reports no figures. */
  lemma DfSingleLine(stdout: string)
    requires '\n' !in stdout
    ensures DfSpace(stdout) == None
  {
    SplitNoSeparator(stdout, '\n');
  }

  // ---------------------------------------------------------------------------
  // Snapshot names

  /** `new Date().toISOString()` for a year in 0..9999:
      `YYYY-MM-DDTHH:MM:SS.mmmZ`. */
  predicate IsIsoInstant(iso: string) {
    |iso| == 24 && iso[4] == '-' && iso[7] == '-' && iso[10] == 'T' && iso[13] == ':'
    && iso[16] == ':' && iso[19] == '.' && iso[23] == 'Z'
    && forall k :: 0 <= k < 23 && k != 4 && k != 7 && k != 10 && k != 13 && k != 16 && k != 19 ==> IsDigit(iso[k])
  }

  /** `toISOString().replace(/[:.]/g, '-').substring(0, 19)`, the token both
      names share. */
  function StampToken(iso: string): string {
    Prefix(ReplaceAll(iso, {':', '.'}, '-'), 19)
  }

  function RootName(prefix: string, token: string): string {
    prefix + "_root_" + token
  }

  function HomeName(prefix: string, token: string): string {
    prefix + "_home_" + token
  }

  /** The token is `YYYY-MM-DDTHH-MM-SS`: 19 characters, the date as the
      instant gives it, a `T`, and the time with its colons made hyphens. */
  lemma StampTokenShape(iso: string)
    requires IsIsoInstant(iso)
    ensures var token := StampToken(iso);
      |token| == 19 && token[10] == 'T' && token[13] == '-' && token[16] == '-'
      && (forall k :: 0 <= k < 19 && k != 13 && k != 16 ==> token[k] == iso[k])
      && '_' !in token
  {
    var token := StampToken(iso);
    forall k | 0 <= k < 19
      ensures token[k] != '_'
    {
      if k != 4 && k != 7 && k != 10 && k != 13 && k != 16 {
        assert IsDigit(iso[k]);
      }
    }
  }

  /** The quirk of line 175 against line 150: the token has a `T` where the
      listing's stamp pattern wants `_`, so no name this class creates ever
      carries a parseable stamp, and listing it gives the capture time. */
  lemma CreatedNamesHaveNoStamp(prefix: string, iso: string, dateOf: string -> int, now: int)
    requires IsIsoInstant(iso)
    ensures TrailingStamp(RootName(prefix, StampToken(iso))) == None
    ensures TrailingStamp(HomeName(prefix, StampToken(iso))) == None
    ensures TimestampOf(RootName(prefix, StampToken(iso)), dateOf, now) == now
    ensures TimestampOf(HomeName(prefix, StampToken(iso)), dateOf, now) == now
  {
    var token := StampToken(iso);
    StampTokenShape(iso);
    var r, h := RootName(prefix, token), HomeName(prefix, token);
    assert r[|r| - 19..] == token;
    assert h[|h| - 19..] == token;
  }

  /** Listing classifies the home name as home and, for a prefix without
      `_` (such as the default `snap`), the root name as root. */
  lemma CreatedNamesKinds(prefix: string, iso: string)
    requires IsIsoInstant(iso)
    ensures KindOf(HomeName(prefix, StampToken(iso))) == Home
    ensures '_' !in prefix ==> KindOf(RootName(prefix, StampToken(iso))) == Root
  {
    var token := StampToken(iso);
    StampTokenShape(iso);
    ContainsInside(prefix, "_home_", token);
    if '_' !in prefix {
      var r := RootName(prefix, token);
      var p := |prefix|;
      forall i | 0 <= i <= |r| - 6
        ensures !OccursAt(r, "_home_", i)
      {
        if i < p {
          assert r[i] == prefix[i];
          assert r[i..i + 6][0] == r[i];
        } else if i == p {
          assert r[i..i + 6][1] == 'r';
        } else {
          assert r[i + 5] == token[i - p - 1];
          assert r[i..i + 6][5] == r[i + 5];
        }
      }
    }
  }

  /** One `Advertencia` line when mkdir failed for a reason other than an
      existing directory. */
  function MkdirWarning(r: CmdResult, warning: string): seq<string> {
    if r.code != 0 && !Contains(r.stderr, "File exists")
    then [warning + r.stderr]
    else []
  }

  // ---------------------------------------------------------------------------
  // Restore note

  /** The note of lines 281-295, cut around the two commands it gives. One
      literal per line of the note, except that the first and the last line
      are cut after a short piece: the verifier reads the characters of short
      literals only, and the proof of `RestoreNoteIsBody` needs the note's
      first and last character. */
  const NoteBefore: string :=
    "IMPORTANTE:" + " Pasos para completar la restauración:\n"
    + "\n"
    + "1. Guarda tu trabajo y cierra todas las aplicaciones\n"
    + "2. Reinicia el sistema: sudo "
  const NoteBetween: string :=
    "\n"
    + "3. Al arrancar, el sistema usará el snapshot restaurado\n"
    + "\n"
    + "NOTA: Si tienes problemas, puedes arrancar desde un Live USB y ejecutar:\n"
    + "  "
  const NoteAfter: string :=
    "\n"
    + "(donde /mnt es tu partición root montada)\n"
    + "\n"
    + "Para hacer permanente el snapshot restaurado y limpiar el anterior,\n"
    + "considera mover los datos o eliminar el subvolumen antiguo después\n"
    + "de verificar que todo funciona " + "correctamente."
  const RebootCommand: string := "systemctl reboot"
  const RescueCommand: string := "btrfs subvolume set-default 5 /mnt"
  const NoteBody: string := NoteBefore + RebootCommand + NoteBetween + RescueCommand + NoteAfter

  /** The template literal as written: it opens with a line break and closes
      with a line break and the indentation of the closing backtick. */
  const NoteTemplate: string := "\n" + NoteBody + "\n      "

  /** The note returned on a successful restore is the template trimmed:
      its body, with no blank padding left. */
  lemma RestoreNoteIsBody()
    ensures Trim(NoteTemplate) == NoteBody
  {
    assert NoteBefore[0] == 'I';
    assert NoteBody[0] == NoteBefore[0];
    assert NoteBody[|NoteBody| - 1] == NoteAfter[|NoteAfter| - 1] == '.';
    TrimPadded("\n", NoteBody, "\n      ");
  }

  /** The note tells the operator to reboot with `systemctl reboot` and gives
      the rescue command `btrfs subvolume set-default 5 /mnt`. */
  lemma RestoreNoteAdvice()
    ensures Contains(NoteBody, RebootCommand)
    ensures Contains(NoteBody, RescueCommand)
  {
    ContainsSecondAndFourth(NoteBefore, RebootCommand, NoteBetween, RescueCommand, NoteAfter);
  }

  // ---------------------------------------------------------------------------
  // The manager

  class BtrfsManager {
    const runner: Runner

    constructor (runner: Runner)
      ensures this.runner == runner
    {
      this.runner := runner;
    }

    /** Probes for btrfs, then (only if it is found) for the root and home
        subvolumes and the space of `/`. */
    method CheckSystem() returns (result: SystemCheck)
      modifies runner
      ensures var t1 := old(runner.trace) + [Which];
        var t2 := t1 + [ShowSubvolume("/")];
        var t3 := t2 + [ShowSubvolume("/home")];
        var t4 := t3 + [DiskFree];
        (result.btrfsOk <==> runner.Reply(t1).code == 0)
        && (!result.btrfsOk ==>
              runner.trace == t1
              && result == SystemCheck(false, false, false, ZeroSpace, Some(NoBtrfsMessage)))
        && (result.btrfsOk ==>
              runner.trace == t4
              && (result.rootSubvol <==> runner.Reply(t2).code == 0)
              && (result.homeSubvol <==> runner.Reply(t3).code == 0)
              && result.space == SpaceReported(runner.Reply(t4))
              && result.error == None)
    {
      result := SystemCheck(false, false, false, ZeroSpace, None);
      var btrfsCheck := runner.Exec("which", ["btrfs"], false);
      result := result.(btrfsOk := btrfsCheck.code == 0);
      if !result.btrfsOk {
        result := result.(error := Some(NoBtrfsMessage));
        return;
      }
      var rootCheck := runner.Exec("btrfs", ["subvolume", "show", "/"], true);
      result := result.(rootSubvol := rootCheck.code == 0);
      var homeCheck := runner.Exec("btrfs", ["subvolume", "show", "/home"], true);
      result := result.(homeSubvol := homeCheck.code == 0);
      var spaceInfo := runner.Exec("df", ["-h", "/"], false);
      if spaceInfo.code == 0 {
        var lines := Split(spaceInfo.stdout, '\n');
        if |lines| > 1 {
          var parts := SplitWs(lines[1]);
          if |parts| >= 4 {
            result := result.(space := Space(parts[3], parts[2], parts[1]));
          }
        }
      }
    }

    /** Lists the read-only subvolumes under `targetDir`; a failing listing
        command gives no snapshots. */
    method ListSnapshots(targetDir: string, dateOf: string -> int, now: int) returns (snapshots: seq<Snapshot>)
      modifies runner
      ensures var t := old(runner.trace) + [ListSubvolumes(targetDir)];
        runner.trace == t
        && (runner.Reply(t).code != 0 ==> snapshots == [])
        && (runner.Reply(t).code == 0 ==>
              snapshots == NewestFirst(Records(NonBlank(Split(runner.Reply(t).stdout, '\n')), targetDir, dateOf, now)))
      ensures IsNewestFirst(snapshots)
    {
      var result := runner.Exec("btrfs", ["subvolume", "list", "-r", targetDir], true);
      if result.code != 0 {
        return [];
      }
      snapshots := ParseListing(result.stdout, targetDir, dateOf, now);
    }

    /** Creates the root snapshot and, only if that succeeded, the home
        snapshot, both named with one token taken from the instant `iso`.
        A failing mkdir only adds a warning; a failing home snapshot is
        reported together with the root name already created. */
    method CreateSnapshot(rootTarget: string, homeTarget: string, prefix: string, iso: string)
      returns (res: CreateResult)
      modifies runner
      ensures var token := StampToken(iso);
        var rootName, homeName := RootName(prefix, token), HomeName(prefix, token);
        var t1 := old(runner.trace) + [MakeDir(rootTarget)];
        var t2 := t1 + [MakeDir(homeTarget)];
        var t3 := t2 + [SnapshotOf("/", rootTarget + "/" + rootName)];
        var t4 := t3 + [SnapshotOf("/home", homeTarget + "/" + homeName)];
        var rootReply, homeReply := runner.Reply(t3), runner.Reply(t4);
        var head := ["Iniciando creación de snapshots...", "Verificando directorios de destino..."]
          + MkdirWarning(runner.Reply(t1), "Advertencia creando directorio root: ") + MkdirWarning(runner.Reply(t2), "Advertencia creando directorio home: ")
          + ["Creando snapshot de root: " + rootName];
        var mid := head + ["✓ Snapshot de root creado: " + rootTarget + "/" + rootName,
                           "Creando snapshot de home: " + homeName];
        (rootReply.code != 0 ==>
           runner.trace == t3
           && res == CreateResult(false, head + ["Error creando snapshot de root: " + rootReply.stderr],
                                  None, None, Some(rootReply.stderr)))
        && (rootReply.code == 0 && homeReply.code != 0 ==>
           runner.trace == t4
           && res == CreateResult(false, mid + ["Error creando snapshot de home: " + homeReply.stderr],
                                  Some(rootName), None, Some(homeReply.stderr)))
        && (rootReply.code == 0 && homeReply.code == 0 ==>
           runner.trace == t4
           && res == CreateResult(true, mid + ["✓ Snapshot de home creado: " + homeTarget + "/" + homeName,
                                               "✓ Snapshots creados exitosamente"],
                                  Some(rootName), Some(homeName), None))
    {
      var logs: seq<string> := [];
      var token := Prefix(ReplaceAll(iso, {':', '.'}, '-'), 19);
      var rootName := prefix + "_root_" + token;
      var homeName := prefix + "_home_" + token;

      logs := logs + ["Iniciando creación de snapshots..."];
      logs := logs + ["Verificando directorios de destino..."];
      var mkdirRoot := runner.Exec("mkdir", ["-p", rootTarget], true);
      ghost var t1 := runner.trace;
      assert t1 == old(runner.trace) + [MakeDir(rootTarget)];
      if mkdirRoot.code != 0 && !Contains(mkdirRoot.stderr, "File exists") {
        logs := logs + ["Advertencia creando directorio root: " + mkdirRoot.stderr];
      }
      assert logs == ["Iniciando creación de snapshots...", "Verificando directorios de destino..."]
        + MkdirWarning(mkdirRoot, "Advertencia creando directorio root: ");
      var mkdirHome := runner.Exec("mkdir", ["-p", homeTarget], true);
      ghost var t2 := runner.trace;
      assert t2 == t1 + [MakeDir(homeTarget)];
      if mkdirHome.code != 0 && !Contains(mkdirHome.stderr, "File exists") {
        logs := logs + ["Advertencia creando directorio home: " + mkdirHome.stderr];
      }
      assert logs == ["Iniciando creación de snapshots...", "Verificando directorios de destino..."]
        + MkdirWarning(mkdirRoot, "Advertencia creando directorio root: ") + MkdirWarning(mkdirHome, "Advertencia creando directorio home: ");

      logs := logs + ["Creando snapshot de root: " + rootName];
      assert token == StampToken(iso);
      assert logs == ["Iniciando creación de snapshots...", "Verificando directorios de destino..."]
        + MkdirWarning(runner.Reply(t1), "Advertencia creando directorio root: ") + MkdirWarning(runner.Reply(t2), "Advertencia creando directorio home: ")
        + ["Creando snapshot de root: " + rootName];
      var rootResult := runner.Exec("btrfs", ["subvolume", "snapshot", "-r", "/", rootTarget + "/" + rootName], true);
      ghost var t3 := runner.trace;
      assert t3 == t2 + [SnapshotOf("/", rootTarget + "/" + rootName)];
      ghost var head := logs;
      if rootResult.code != 0 {
        logs := logs + ["Error creando snapshot de root: " + rootResult.stderr];
        return CreateResult(false, logs, None, None, Some(rootResult.stderr));
      }
      logs := logs + ["✓ Snapshot de root creado: " + rootTarget + "/" + rootName];

      logs := logs + ["Creando snapshot de home: " + homeName];
      var homeResult := runner.Exec("btrfs", ["subvolume", "snapshot", "-r", "/home", homeTarget + "/" + homeName], true);
      assert runner.trace == t3 + [SnapshotOf("/home", homeTarget + "/" + homeName)];
      assert rootResult == runner.Reply(t3);
      assert logs == head + ["✓ Snapshot de root creado: " + rootTarget + "/" + rootName,
                             "Creando snapshot de home: " + homeName];
      if homeResult.code != 0 {
        logs := logs + ["Error creando snapshot de home: " + homeResult.stderr];
        return CreateResult(false, logs, Some(rootName), None, Some(homeResult.stderr));
      }
      logs := logs + ["✓ Snapshot de home creado: " + homeTarget + "/" + homeName];
      logs := logs + ["✓ Snapshots creados exitosamente"];
      res := CreateResult(true, logs, Some(rootName), Some(homeName), None);
    }

    /** Reads the current default subvolume (for the log only), then makes
        `snapshotPath` the default; it deletes nothing and does not reboot. */
    method RestoreSnapshot(snapshotPath: string) returns (res: RestoreResult)
      modifies runner
      ensures var t1 := old(runner.trace) + [GetDefault];
        var t2 := t1 + [SetDefault(snapshotPath)];
        var current := runner.Reply(t1);
        var reply := runner.Reply(t2);
        var head := ["Restaurando snapshot: " + snapshotPath]
          + (if current.code == 0 then ["Subvolumen root actual: " + Trim(current.stdout)] else []);
        runner.trace == t2
        && (reply.code != 0 ==>
              res == RestoreResult(false, head + ["Error estableciendo snapshot como default: " + reply.stderr],
                                   "", Some(reply.stderr)))
        && (reply.code == 0 ==>
              res == RestoreResult(true, head + ["✓ Snapshot establecido como subvolumen por defecto"],
                                   NoteBody, None))
    {
      var logs: seq<string> := [];
      logs := logs + ["Restaurando snapshot: " + snapshotPath];
      var rootIdResult := runner.Exec("btrfs", ["subvolume", "get-default", "/"], true);
      ghost var t1 := runner.trace;
      assert t1 == old(runner.trace) + [GetDefault];
      if rootIdResult.code == 0 {
        logs := logs + ["Subvolumen root actual: " + Trim(rootIdResult.stdout)];
      }
      ghost var head := logs;
      assert head == ["Restaurando snapshot: " + snapshotPath]
        + (if runner.Reply(t1).code == 0 then ["Subvolumen root actual: " + Trim(runner.Reply(t1).stdout)] else []);
      var result := runner.Exec("btrfs", ["subvolume", "set-default", snapshotPath], true);
      assert runner.trace == t1 + [SetDefault(snapshotPath)];
      if result.code != 0 {
        logs := logs + ["Error estableciendo snapshot como default: " + result.stderr];
        return RestoreResult(false, logs, "", Some(result.stderr));
      }
      logs := logs + ["✓ Snapshot establecido como subvolumen por defecto"];
      var note := Trim(NoteTemplate);
      RestoreNoteIsBody();
      res := RestoreResult(true, logs, note, None);
    }

    /** One elevated delete; ok exactly when it exits 0. */
    method DeleteSnapshot(snapshotPath: string) returns (res: DeleteResult)
      modifies runner
      ensures var t := old(runner.trace) + [DeleteSubvolume(snapshotPath)];
        runner.trace == t
        && (runner.Reply(t).code == 0 ==> res == DeleteResult(true, None))
        && (runner.Reply(t).code != 0 ==> res == DeleteResult(false, Some(runner.Reply(t).stderr)))
    {
      var result := runner.Exec("btrfs", ["subvolume", "delete", snapshotPath], true);
      if result.code != 0 {
        return DeleteResult(false, Some(result.stderr));
      }
      res := DeleteResult(true, None);
    }
  }
}
