/** Properties of the texts TimersManager generates (src/backend/TimersManager.ts):
    where the script places its steps and its retention block, what each
    retention block runs, and the settings systemd reads back from the
    service and timer units. */
module UnitFacts {
  import opened Wrappers
  import opened Text
  import opened Units

  // ---------------------------------------------------------------------------
  // The script

  /** Positions in seven pieces joined, the third of them itself three
      pieces: where the second piece, the middle of the third and the fifth
      start. */
  lemma StepsLayout(a: string, b: string, c: string, x: string, y: string, d: string, e: string, f: string, g: string)
    ensures var s := a + b + (c + x + y) + d + e + f + g;
      OccursAt(s, b, |a|) && OccursAt(s, x, |a| + |b| + |c|)
      && OccursAt(s, e, |a| + |b| + |c + x + y| + |d|)
  {
    var s := a + b + (c + x + y) + d + e + f + g;
    assert s[|a|..|a| + |b|] == b;
    assert s[|a| + |b| + |c|..|a| + |b| + |c| + |x|] == x;
    assert s[|a| + |b| + |c + x + y| + |d|..|a| + |b| + |c + x + y| + |d| + |e|] == e;
  }

  /** The positions of the two snapshot commands and of the `exit 1` after
      the root one, within the snapshot steps. */
  lemma SnapshotStepsOrder()
    ensures OccursAt(SnapshotSteps, RootCommand, |RootIntro|)
    ensures OccursAt(SnapshotSteps, ExitFailure, |RootIntro| + |RootCommand| + |RootCheckHead|)
    ensures OccursAt(SnapshotSteps, HomeCommand, |RootIntro| + |RootCommand| + |RootCheck| + |HomeIntro|)
  {
    StepsLayout(RootIntro, RootCommand, RootCheckHead, ExitFailure, "\nfi\n\n", HomeIntro, HomeCommand, HomeCheck, CleanupHeading);
  }

  /** An occurrence in the second of four pieces, seen in the whole. */
  lemma InSecondOfFour(a: string, m: string, b: string, c: string, t: string, i: int)
    ensures OccursAt(m, t, i) ==> OccursAt(a + m + b + c, t, |a| + i)
  {
    if OccursAt(m, t, i) {
      assert (a + m + b + c)[|a| + i..|a| + i + |t|] == m[i..i + |t|];
    }
  }

  /** The step positions survive any header before and any text after. */
  lemma StepsAround(header: string, block: string)
    ensures var s := header + SnapshotSteps + block + ScriptTrailer;
      OccursAt(s, RootCommand, |header| + |RootIntro|)
      && OccursAt(s, ExitFailure, |header| + |RootIntro| + |RootCommand| + |RootCheckHead|)
      && OccursAt(s, HomeCommand, |header| + |RootIntro| + |RootCommand| + |RootCheck| + |HomeIntro|)
  {
    SnapshotStepsOrder();
    InSecondOfFour(header, SnapshotSteps, block, ScriptTrailer, RootCommand, |RootIntro|);
    InSecondOfFour(header, SnapshotSteps, block, ScriptTrailer, ExitFailure, |RootIntro| + |RootCommand| + |RootCheckHead|);
    InSecondOfFour(header, SnapshotSteps, block, ScriptTrailer, HomeCommand,
      |RootIntro| + |RootCommand| + |RootCheck| + |HomeIntro|);
  }

  /** In the script the root snapshot command comes first, then the
      `exit 1` of its failure branch, and only then the home snapshot
      command: a failed root snapshot stops the script before home. */
  lemma ScriptStepOrder(rootTarget: string, homeTarget: string, prefix: string, retention: Retention)
    ensures var s := Script(rootTarget, homeTarget, prefix, retention);
      var root := |ScriptHeader(rootTarget, homeTarget, prefix)| + |RootIntro|;
      var exit := root + |RootCommand| + |RootCheckHead|;
      var home := root + |RootCommand| + |RootCheck| + |HomeIntro|;
      OccursAt(s, RootCommand, root) && OccursAt(s, ExitFailure, exit) && OccursAt(s, HomeCommand, home)
      && root + |RootCommand| <= exit && exit + |ExitFailure| <= home
  {
    StepsAround(ScriptHeader(rootTarget, homeTarget, prefix), RetentionBlock(rootTarget, homeTarget, prefix, retention));
  }

  /** The third of four pieces sits after the first two. */
  lemma ThirdOfFour(h: string, m: string, b: string, t: string)
    ensures OccursAt(h + m + b + t, b, |h| + |m|)
  {
    assert (h + m + b + t)[|h| + |m|..|h| + |m| + |b|] == b;
  }

  /** The retention block sits right after the snapshot steps. */
  lemma BlockAfterSteps(rootTarget: string, homeTarget: string, prefix: string, retention: Retention)
    ensures OccursAt(Script(rootTarget, homeTarget, prefix, retention),
      RetentionBlock(rootTarget, homeTarget, prefix, retention), BlockStart(rootTarget, homeTarget, prefix))
  {
    ThirdOfFour(ScriptHeader(rootTarget, homeTarget, prefix), SnapshotSteps,
      RetentionBlock(rootTarget, homeTarget, prefix, retention), ScriptTrailer);
  }

  /** Seven pieces joined, as the count block is, open with the first piece
      and the first character of the second. */
  lemma OpeningOfSeven(a: string, t: string, c: string, d: string, e: string, f: string, g: string)
    ensures |t| > 0 ==> OccursAt(a + t + c + d + e + f + g, a + [t[0]], 0)
  {
    if |t| > 0 {
      assert (a + t + c + d + e + f + g)[..|a| + 1] == a + [t[0]];
    }
  }

  /** The same for nine pieces, as the age block is joined. */
  lemma OpeningOfNine(a: string, t: string, c: string, d: string, e: string, f: string, g: string, h: string, i: string)
    ensures |t| > 0 ==> OccursAt(a + t + c + d + e + f + g + h + i, a + [t[0]], 0)
  {
    if |t| > 0 {
      assert (a + t + c + d + e + f + g + h + i)[..|a| + 1] == a + [t[0]];
    }
  }

  /** The count block opens with the common retention opening followed by
      the first character of its topic, `c`. */
  lemma CountBlockOpening(rootTarget: string, homeTarget: string, prefix: string, value: int)
    ensures OccursAt(CountRetention(rootTarget, homeTarget, prefix, value), RetentionIntro + [CountTopic[0]], 0)
    ensures CountTopic[0] == 'c'
  {
    OpeningOfSeven(RetentionIntro, CountTopic, IntToString(value), ")...\"\n\n",
      CountCleanup(Root, RootList, rootTarget, prefix, value),
      "\n", CountCleanup(Home, HomeList, homeTarget, prefix, value));
  }

  /** The age block opens with the same common opening followed by `e`. */
  lemma AgeBlockOpening(rootTarget: string, homeTarget: string, prefix: string, value: int)
    ensures OccursAt(AgeRetention(rootTarget, homeTarget, prefix, value), RetentionIntro + [AgeTopic[0]], 0)
    ensures AgeTopic[0] == 'e'
  {
    OpeningOfNine(RetentionIntro, AgeTopic, IntToString(value), " días)...\"\n\n", RootCleanupHeading,
      FindOlder(rootTarget, prefix, "root", value), HomeCleanupHeading, FindOlder(homeTarget, prefix, "home", value), "\n");
  }

  /** Where one text occurs, another whose opening differs from the
      first's in the character after a common start does not. */
  lemma OtherOpeningNotThere(s: string, t: string, u: string, at: int, p: string, c: char, d: char)
    ensures OccursAt(s, t, at) && OccursAt(t, p + [c], 0) && OccursAt(u, p + [d], 0) && c != d
      ==> !OccursAt(s, u, at)
  {
    if OccursAt(s, t, at) && OccursAt(t, p + [c], 0) && OccursAt(u, p + [d], 0) && c != d {
      var k := |p|;
      assert t[k] == t[..k + 1][k] == c;
      assert s[at + k] == s[at..at + |t|][k];
      if at + |u| <= |s| {
        assert u[k] == u[..k + 1][k] == d;
        assert s[at..at + |u|][k] == s[at + k];
      }
    }
  }

  /** Where the retention block occurs, so does the chosen one. */
  lemma ChosenBlockThere(s: string, rootTarget: string, homeTarget: string, prefix: string, retention: Retention, at: int)
    ensures OccursAt(s, RetentionBlock(rootTarget, homeTarget, prefix, retention), at) ==>
      (retention.kind == "count" ==> OccursAt(s, CountRetention(rootTarget, homeTarget, prefix, retention.value), at))
      && (retention.kind != "count" ==> OccursAt(s, AgeRetention(rootTarget, homeTarget, prefix, retention.value), at))
  {
  }

  /** Where the count block occurs the age block does not, and the other
      way round. */
  lemma BlocksExclude(s: string, rootTarget: string, homeTarget: string, prefix: string, value: int, at: int)
    ensures OccursAt(s, CountRetention(rootTarget, homeTarget, prefix, value), at)
      ==> !OccursAt(s, AgeRetention(rootTarget, homeTarget, prefix, value), at)
    ensures OccursAt(s, AgeRetention(rootTarget, homeTarget, prefix, value), at)
      ==> !OccursAt(s, CountRetention(rootTarget, homeTarget, prefix, value), at)
  {
    var count, age := CountRetention(rootTarget, homeTarget, prefix, value), AgeRetention(rootTarget, homeTarget, prefix, value);
    CountBlockOpening(rootTarget, homeTarget, prefix, value);
    AgeBlockOpening(rootTarget, homeTarget, prefix, value);
    OtherOpeningNotThere(s, count, age, at, RetentionIntro, CountTopic[0], AgeTopic[0]);
    OtherOpeningNotThere(s, age, count, at, RetentionIntro, AgeTopic[0], CountTopic[0]);
  }

  /** Wherever the retention block occurs, the count block occurs there
      exactly when the retention type is `count`, and the age block exactly
      when it is not. */
  lemma ChosenBlock(s: string, rootTarget: string, homeTarget: string, prefix: string, retention: Retention, at: int)
    ensures OccursAt(s, RetentionBlock(rootTarget, homeTarget, prefix, retention), at) ==>
      (OccursAt(s, CountRetention(rootTarget, homeTarget, prefix, retention.value), at) <==> retention.kind == "count")
      && (OccursAt(s, AgeRetention(rootTarget, homeTarget, prefix, retention.value), at) <==> retention.kind != "count")
  {
    ChosenBlockThere(s, rootTarget, homeTarget, prefix, retention, at);
    BlocksExclude(s, rootTarget, homeTarget, prefix, retention.value, at);
  }

  /** After the snapshot steps the script embeds exactly one retention
      block: the count block when the retention type is `count`, the age
      block otherwise. */
  lemma ScriptRetentionChoice(rootTarget: string, homeTarget: string, prefix: string, retention: Retention)
    ensures var s := Script(rootTarget, homeTarget, prefix, retention);
      var at := BlockStart(rootTarget, homeTarget, prefix);
      (OccursAt(s, CountRetention(rootTarget, homeTarget, prefix, retention.value), at) <==> retention.kind == "count")
      && (OccursAt(s, AgeRetention(rootTarget, homeTarget, prefix, retention.value), at) <==> retention.kind != "count")
  {
    BlockAfterSteps(rootTarget, homeTarget, prefix, retention);
    ChosenBlock(Script(rootTarget, homeTarget, prefix, retention), rootTarget, homeTarget, prefix, retention,
      BlockStart(rootTarget, homeTarget, prefix));
  }

  /** Where the second and fourth of five pieces start. */
  lemma SecondAndFourthOfFive(h: string, s: string, l: string, d: string, t: string)
    ensures OccursAt(h + s + l + d + t, s, |h|) && OccursAt(h + s + l + d + t, d, |h| + |s| + |l|)
  {
    assert (h + s + l + d + t)[|h|..|h| + |s|] == s;
    assert (h + s + l + d + t)[|h| + |s| + |l|..|h| + |s| + |l| + |d|] == d;
  }

  /** Each count cleanup holds its selector pipeline and, after the loop
      head, the deletion of each selected name. */
  lemma CleanupSelects(kind: string, variable: string, target: string, prefix: string, count: int)
    ensures var head, selector := CleanupHead(kind, variable), Selector(target, prefix, kind, count);
      var cleanup := CountCleanup(kind, variable, target, prefix, count);
      OccursAt(cleanup, selector, |head|)
      && OccursAt(cleanup, DeleteEach(target), |head| + |selector| + |CleanupLoop(variable, target)|)
  {
    SecondAndFourthOfFive(CleanupHead(kind, variable), Selector(target, prefix, kind, count),
      CleanupLoop(variable, target), DeleteEach(target), "\ndone\n");
  }

  /** Two occurrences in the second of four pieces are contained in the
      whole. */
  lemma TwoInSecondOfFour(a: string, m: string, b: string, c: string, t: string, i: int, u: string, j: int)
    ensures OccursAt(m, t, i) && OccursAt(m, u, j) ==> Contains(a + m + b + c, t) && Contains(a + m + b + c, u)
  {
    InSecondOfFour(a, m, b, c, t, i);
    InSecondOfFour(a, m, b, c, u, j);
  }

  /** Two occurrences in the last of three pieces are contained in the
      whole. */
  lemma TwoInThirdOfThree(a: string, b: string, m: string, t: string, i: int, u: string, j: int)
    ensures OccursAt(m, t, i) && OccursAt(m, u, j) ==> Contains(a + b + m, t) && Contains(a + b + m, u)
  {
    if OccursAt(m, t, i) && OccursAt(m, u, j) {
      assert (a + b + m)[|a + b| + i..|a + b| + i + |t|] == m[i..i + |t|];
      assert OccursAt(a + b + m, t, |a + b| + i);
      assert (a + b + m)[|a + b| + j..|a + b| + j + |u|] == m[j..j + |u|];
      assert OccursAt(a + b + m, u, |a + b| + j);
    }
  }

  /** The root half of the count block: it selects root snapshots under the
      root target and deletes each there. */
  lemma CountBlockRootHalf(rootTarget: string, homeTarget: string, prefix: string, count: int)
    ensures var block := CountRetention(rootTarget, homeTarget, prefix, count);
      Contains(block, Selector(rootTarget, prefix, Root, count)) && Contains(block, DeleteEach(rootTarget))
  {
    CleanupSelects(Root, RootList, rootTarget, prefix, count);
    var i := |CleanupHead(Root, RootList)|;
    TwoInSecondOfFour(CountHead(count), CountCleanup(Root, RootList, rootTarget, prefix, count), "\n",
      CountCleanup(Home, HomeList, homeTarget, prefix, count),
      Selector(rootTarget, prefix, Root, count), i,
      DeleteEach(rootTarget), i + |Selector(rootTarget, prefix, Root, count)| + |CleanupLoop(RootList, rootTarget)|);
  }

  /** The home half of the count block. */
  lemma CountBlockHomeHalf(rootTarget: string, homeTarget: string, prefix: string, count: int)
    ensures var block := CountRetention(rootTarget, homeTarget, prefix, count);
      Contains(block, Selector(homeTarget, prefix, Home, count)) && Contains(block, DeleteEach(homeTarget))
  {
    CleanupSelects(Home, HomeList, homeTarget, prefix, count);
    var j := |CleanupHead(Home, HomeList)|;
    TwoInThirdOfThree(CountHead(count) + CountCleanup(Root, RootList, rootTarget, prefix, count), "\n",
      CountCleanup(Home, HomeList, homeTarget, prefix, count),
      Selector(homeTarget, prefix, Home, count), j,
      DeleteEach(homeTarget), j + |Selector(homeTarget, prefix, Home, count)| + |CleanupLoop(HomeList, homeTarget)|);
  }

  /** The count block selects, for root and home each under its own target,
      the names with the prefix and kind, sorted newest first, skipping the
      `count` newest, and deletes each under the same target. */
  lemma CountBlockKeepsNewest(rootTarget: string, homeTarget: string, prefix: string, count: int)
    ensures var block := CountRetention(rootTarget, homeTarget, prefix, count);
      Contains(block, Selector(rootTarget, prefix, Root, count))
      && Contains(block, DeleteEach(rootTarget))
      && Contains(block, Selector(homeTarget, prefix, Home, count))
      && Contains(block, DeleteEach(homeTarget))
  {
    CountBlockRootHalf(rootTarget, homeTarget, prefix, count);
    CountBlockHomeHalf(rootTarget, homeTarget, prefix, count);
  }

  /** Where the fourth, sixth and eighth of nine pieces start. */
  lemma EvenPiecesOfNine(a: string, b: string, c: string, d: string, e: string, f: string, g: string, h: string, i: string)
    ensures var s := a + b + c + d + e + f + g + h + i;
      OccursAt(s, d, |a| + |b| + |c|) && OccursAt(s, f, |a| + |b| + |c| + |d| + |e|)
      && OccursAt(s, h, |a| + |b| + |c| + |d| + |e| + |f| + |g|)
  {
    var s := a + b + c + d + e + f + g + h + i;
    var k := |a| + |b| + |c|;
    assert s[k..k + |d|] == d;
    k := k + |d| + |e|;
    assert s[k..k + |f|] == f;
    k := k + |f| + |g|;
    assert s[k..k + |h|] == h;
  }

  /** Within one selector the prefix-and-kind filter comes before the
      newest-first sort, which comes before skipping the `count` newest. */
  lemma SelectorPipelineOrder(target: string, prefix: string, kind: string, count: int)
    ensures var s := Selector(target, prefix, kind, count);
      var grep := |"pkexec btrfs subvolume list -r " + target + " | "|;
      var sort := grep + |KindFilter(prefix, kind)| + 3;
      var tail := sort + |NewestFirst| + 3;
      OccursAt(s, KindFilter(prefix, kind), grep) && OccursAt(s, NewestFirst, sort)
      && OccursAt(s, SkipNewest(count), tail)
  {
    EvenPiecesOfNine("pkexec btrfs subvolume list -r ", target, " | ", KindFilter(prefix, kind), " | ", NewestFirst,
      " | ", SkipNewest(count), " | awk '{print $NF}'");
  }

  /** The third and fifth of six pieces are contained in the whole. */
  lemma ThirdAndFifthOfSix(a: string, b: string, c: string, d: string, e: string, f: string)
    ensures Contains(a + b + c + d + e + f, c) && Contains(a + b + c + d + e + f, e)
  {
    var s := a + b + c + d + e + f;
    assert s[|a| + |b|..|a| + |b| + |c|] == c;
    assert OccursAt(s, c, |a| + |b|);
    assert s[|a| + |b| + |c| + |d|..|a| + |b| + |c| + |d| + |e|] == e;
    assert OccursAt(s, e, |a| + |b| + |c| + |d|);
  }

  /** The age block runs one `find ... -mtime +days` deletion per target,
      each matching only its own prefix and kind. */
  lemma AgeBlockFindsOlder(rootTarget: string, homeTarget: string, prefix: string, days: int)
    ensures var block := AgeRetention(rootTarget, homeTarget, prefix, days);
      Contains(block, FindOlder(rootTarget, prefix, "root", days))
      && Contains(block, FindOlder(homeTarget, prefix, "home", days))
    ensures Contains(FindOlder(rootTarget, prefix, "root", days), OlderThan(days))
    ensures Contains(FindOlder(homeTarget, prefix, "home", days), OlderThan(days))
  {
    ThirdAndFifthOfSix(AgeHead(days), RootCleanupHeading, FindOlder(rootTarget, prefix, "root", days),
      HomeCleanupHeading, FindOlder(homeTarget, prefix, "home", days), "\n");
    FindShowsAge(rootTarget, prefix, "root", days);
    FindShowsAge(homeTarget, prefix, "home", days);
  }

  /** The eighth of nine pieces is contained in the whole. */
  lemma EighthOfNine(a: string, b: string, c: string, d: string, e: string, f: string, g: string, h: string, i: string)
    ensures Contains(a + b + c + d + e + f + g + h + i, h)
  {
    EvenPiecesOfNine(a, b, c, d, e, f, g, h, i);
  }

  lemma FindShowsAge(target: string, prefix: string, kind: string, days: int)
    ensures Contains(FindOlder(target, prefix, kind, days), OlderThan(days))
  {
    EighthOfNine("find ", target, " -maxdepth 1 -name \"", prefix, "_", kind, "_*\" ", OlderThan(days), DeleteFound);
  }

  /** The retention numbers are written in decimal where the shell reads
      them: the count inside `tail -n +$((count + 1))`, so the `count`
      newest matches are skipped, and the days right after `-mtime +`. */
  lemma RetentionNumbersReadBack(n: nat)
    ensures var digits := NatToString(n);
      OccursAt(SkipNewest(n), digits, |"tail -n +$(("|)
      && OccursAt(SkipNewest(n), " + 1))", |"tail -n +$(("| + |digits|)
      && OccursAt(OlderThan(n), digits, |"-mtime +"|)
      && |OlderThan(n)| == |"-mtime +"| + |digits|
      && (forall k :: 0 <= k < |digits| ==> IsDigit(digits[k])) && DigitsValue(digits) == n
  {
    var digits := NatToString(n);
    NatToStringReadsBack(n);
    OccursAtEnd("tail -n +$((", digits);
    OccursExtend("tail -n +$((" + digits, " + 1))", digits, |"tail -n +$(("|);
    OccursAtEnd("tail -n +$((" + digits, " + 1))");
    OccursAtEnd("-mtime +", digits);
  }

  // ---------------------------------------------------------------------------
  // The systemd units

  lemma {:induction false} FirstSettingAt(lines: seq<string>, head: string, i: nat)
    requires i < |lines|
    requires forall j :: 0 <= j < i ==> !StartsWith(lines[j], head)
    requires StartsWith(lines[i], head)
    ensures FirstSetting(lines, head) == Some(lines[i][|head|..])
    decreases i
  {
    if i > 0 {
      assert !StartsWith(lines[0], head);
      FirstSettingAt(lines[1..], head, i - 1);
    }
  }

  /** A line that is empty or starts with another character than `head`
      does not start with `head`. */
  lemma OtherFirstChar(line: string, head: string)
    requires head != []
    requires line == [] || line[0] != head[0]
    ensures !StartsWith(line, head)
  {
    if line != [] && |head| <= |line| {
      assert line[..|head|][0] != head[0];
    }
  }

  lemma AssignmentReads(key: string, value: string)
    ensures StartsWith(Assignment(key, value), key + "=")
    ensures Assignment(key, value)[|key + "="|..] == value
  {
    assert Assignment(key, value) == (key + "=") + value;
  }

  /** A line that assigns another key, or a section header, or a blank
      line, is not the setting of `key`. */
  lemma NotTheSetting(line: string, key: string)
    requires key != []
    requires line == [] || line[0] != key[0]
    ensures !StartsWith(line, key + "=")
  {
    OtherFirstChar(line, key + "=");
  }

  /** A unit file, split back into lines, gives the lines it was joined
      from, so its settings are those of its lines. */
  lemma SettingOfLines(lines: seq<string>, key: string)
    requires |lines| >= 1
    requires forall k :: 0 <= k < |lines| ==> '\n' !in lines[k]
    ensures Setting(Join(lines, "\n"), key) == FirstSetting(lines, key + "=")
  {
    JoinSplit(lines, '\n');
  }

  lemma ServiceLinesOneEach(scriptPath: string)
    requires '\n' !in scriptPath
    ensures forall k :: 0 <= k < |ServiceLines(scriptPath)| ==> '\n' !in ServiceLines(scriptPath)[k]
  {
  }

  lemma ServiceLinesSettings(scriptPath: string)
    ensures FirstSetting(ServiceLines(scriptPath), "ExecStart" + "=") == Some(scriptPath)
    ensures FirstSetting(ServiceLines(scriptPath), "Type" + "=") == Some("oneshot")
  {
    var lines := ServiceLines(scriptPath);
    forall j | 0 <= j < 6
      ensures !StartsWith(lines[j], "ExecStart" + "=")
    {
      NotTheSetting(lines[j], "ExecStart");
    }
    AssignmentReads("ExecStart", scriptPath);
    FirstSettingAt(lines, "ExecStart" + "=", 6);
    forall j | 0 <= j < 5
      ensures !StartsWith(lines[j], "Type" + "=")
    {
      NotTheSetting(lines[j], "Type");
    }
    AssignmentReads("Type", "oneshot");
    FirstSettingAt(lines, "Type" + "=", 5);
  }

  /** The service unit, read back as systemd reads it, runs the script once
      per activation: `Type=oneshot` and `ExecStart=` the script path. */
  lemma ServiceFileSettings(scriptPath: string)
    requires '\n' !in scriptPath
    ensures Setting(ServiceFile(scriptPath), "ExecStart") == Some(scriptPath)
    ensures Setting(ServiceFile(scriptPath), "Type") == Some("oneshot")
  {
    ServiceLinesOneEach(scriptPath);
    SettingOfLines(ServiceLines(scriptPath), "ExecStart");
    SettingOfLines(ServiceLines(scriptPath), "Type");
    ServiceLinesSettings(scriptPath);
  }

  lemma TimerLinesOneEach(schedule: string)
    ensures forall k :: 0 <= k < |TimerLines(schedule)| ==> '\n' !in TimerLines(schedule)[k]
  {
    var keyword := OnCalendarValue(schedule);
    assert '\n' !in keyword;
  }

  lemma TimerLinesSettings(schedule: string)
    ensures FirstSetting(TimerLines(schedule), "OnCalendar" + "=") == Some(OnCalendarValue(schedule))
    ensures FirstSetting(TimerLines(schedule), "Persistent" + "=") == Some("true")
    ensures FirstSetting(TimerLines(schedule), "Requires" + "=") == Some(ServiceUnit)
  {
    var lines := TimerLines(schedule);
    forall j | 0 <= j < 5
      ensures !StartsWith(lines[j], "OnCalendar" + "=")
    {
      NotTheSetting(lines[j], "OnCalendar");
    }
    AssignmentReads("OnCalendar", OnCalendarValue(schedule));
    FirstSettingAt(lines, "OnCalendar" + "=", 5);
    forall j | 0 <= j < 6
      ensures !StartsWith(lines[j], "Persistent" + "=")
    {
      NotTheSetting(lines[j], "Persistent");
    }
    AssignmentReads("Persistent", "true");
    FirstSettingAt(lines, "Persistent" + "=", 6);
    forall j | 0 <= j < 2
      ensures !StartsWith(lines[j], "Requires" + "=")
    {
      NotTheSetting(lines[j], "Requires");
    }
    AssignmentReads("Requires", ServiceUnit);
    FirstSettingAt(lines, "Requires" + "=", 2);
  }

  /** The timer unit, read back, fires on the schedule's calendar keyword,
      catches up missed runs (`Persistent=true`), and requires the service
      unit. */
  lemma TimerFileSettings(schedule: string)
    ensures Setting(TimerFile(schedule), "OnCalendar") == Some(OnCalendarValue(schedule))
    ensures Setting(TimerFile(schedule), "Persistent") == Some("true")
    ensures Setting(TimerFile(schedule), "Requires") == Some(ServiceUnit)
  {
    TimerLinesOneEach(schedule);
    SettingOfLines(TimerLines(schedule), "OnCalendar");
    SettingOfLines(TimerLines(schedule), "Persistent");
    SettingOfLines(TimerLines(schedule), "Requires");
    TimerLinesSettings(schedule);
  }
}
