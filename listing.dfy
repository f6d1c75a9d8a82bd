/** The parser `listSnapshots` applies to the text of
    `btrfs subvolume list -r <target>` (src/backend/BtrfsManager.ts:134-170):
    keep the non-blank lines, take from each the capture of
    `/path\s+(.+)$/`, turn it into a snapshot record and sort the records
    newest first.

    Timestamps are abstract: the engine's date parse is the parameter
    `dateOf` and `new Date()` is the parameter `now`. */
module Listing {
  import opened Wrappers
  import opened Text

  datatype Kind = Root | Home

  /** BtrfsSnapshot */
  datatype Snapshot = Snapshot(path: string, name: string, kind: Kind, timestamp: int, readonly: bool)

  // ---------------------------------------------------------------------------
  // The regular expression /path\s+(.+)$/ (no flags)

  /** Position `i` starts `path`, one white-space character, and at least one
      more character: where the expression can match on a line without line
      terminators. */
  predicate Anchor(s: string, i: int) {
    0 <= i && i + 5 < |s| && s[i..i + 4] == "path" && IsSpace(s[i + 4])
  }

  /** End of the run of white space starting at `k`. */
  function SpaceRunEnd(s: string, k: nat): (j: nat)
    requires k <= |s|
    ensures k <= j <= |s|
    ensures forall m :: k <= m < j ==> IsSpace(s[m])
    ensures j == |s| || !IsSpace(s[j])
    decreases |s| - k
  {
    if k < |s| && IsSpace(s[k]) then SpaceRunEnd(s, k + 1) else k
  }

  /** Backtracking of the greedy `\s+`: the capture `(.+)$` starts at the
      largest `k` in [lo, hi] from which the rest of the line is non-empty
      and free of line terminators. */
  function GreedyTail(s: string, lo: nat, k: nat): Option<string>
    requires lo <= k <= |s|
    decreases k - lo
  {
    if k < |s| && NoLineTerminator(s[k..]) then Some(s[k..])
    else if k == lo then None
    else GreedyTail(s, lo, k - 1)
  }

  /** The match attempt starting exactly at position `i`. */
  function MatchAt(s: string, i: nat): Option<string>
    requires i <= |s|
  {
    if i + 5 <= |s| && s[i..i + 4] == "path" && IsSpace(s[i + 4])
    then GreedyTail(s, i + 5, SpaceRunEnd(s, i + 5))
    else None
  }

  /** The leftmost successful match attempt at or after `i`. */
  function CaptureFrom(s: string, i: nat): Option<string>
    requires i <= |s|
    decreases |s| - i
  {
    var m := MatchAt(s, i);
    if m.Some? || i == |s| then m else CaptureFrom(s, i + 1)
  }

  /** `line.match(/path\s+(.+)$/)?.[1]` */
  function PathCapture(line: string): Option<string> {
    CaptureFrom(line, 0)
  }

  /** Where the capture begins for an anchor: after all the white space, or
      on the last character when the white space runs to the end. */
  function CaptureStart(s: string, i: int): nat
    requires Anchor(s, i)
  {
    var j := SpaceRunEnd(s, i + 5);
    if j < |s| then j else |s| - 1
  }

  lemma MatchAtAnchor(s: string, i: nat)
    requires i <= |s| && NoLineTerminator(s)
    ensures MatchAt(s, i) == if Anchor(s, i) then Some(s[CaptureStart(s, i)..]) else None
  {
    if i + 5 <= |s| && s[i..i + 4] == "path" && IsSpace(s[i + 4]) {
      var j := SpaceRunEnd(s, i + 5);
      if j < |s| {
        assert NoLineTerminator(s[j..]);
      } else if i + 5 < |s| {
        assert GreedyTail(s, i + 5, |s|) == GreedyTail(s, i + 5, |s| - 1);
        assert NoLineTerminator(s[|s| - 1..]);
      }
    }
  }

  lemma {:induction false} CaptureFromFirstAnchor(s: string, i: nat, a: nat)
    requires i <= a && Anchor(s, a) && NoLineTerminator(s)
    requires forall h :: i <= h < a ==> !Anchor(s, h)
    ensures CaptureFrom(s, i) == Some(s[CaptureStart(s, a)..])
    decreases a - i
  {
    MatchAtAnchor(s, i);
    if i < a {
      CaptureFromFirstAnchor(s, i + 1, a);
    }
  }

  lemma {:induction false} CaptureFromNoAnchor(s: string, i: nat)
    requires i <= |s| && NoLineTerminator(s)
    requires forall h :: i <= h <= |s| ==> !Anchor(s, h)
    ensures CaptureFrom(s, i) == None
    decreases |s| - i
  {
    MatchAtAnchor(s, i);
    if i < |s| {
      CaptureFromNoAnchor(s, i + 1);
    }
  }

  lemma {:induction false} LeastAnchor(s: string, i: int) returns (a: nat)
    requires Anchor(s, i)
    ensures Anchor(s, a) && a <= i
    ensures forall h :: 0 <= h < a ==> !Anchor(s, h)
    decreases i
  {
    if h :| 0 <= h < i && Anchor(s, h) {
      a := LeastAnchor(s, h);
    } else {
      a := i;
    }
  }

  /** On a line without line terminators the expression matches exactly when
      some position holds `path`, white space and at least one more
      character, and the capture is the rest of the line after the white
      space that follows the leftmost such position. */
  lemma PathCaptureLeftmost(s: string)
    requires NoLineTerminator(s)
    ensures PathCapture(s).Some? <==> exists i :: Anchor(s, i)
    ensures forall a :: Anchor(s, a) && (forall h :: 0 <= h < a ==> !Anchor(s, h)) ==>
              PathCapture(s) == Some(s[CaptureStart(s, a)..])
  {
    if i :| Anchor(s, i) {
      var a := LeastAnchor(s, i);
      CaptureFromFirstAnchor(s, 0, a);
      forall a' | Anchor(s, a') && (forall h :: 0 <= h < a' ==> !Anchor(s, h))
        ensures a' == a
      {
      }
    } else {
      CaptureFromNoAnchor(s, 0);
    }
  }

  /** A line in which `path` does not occur never matches. */
  lemma {:induction false} NoPathNoCapture(s: string, i: nat)
    requires i <= |s|
    requires forall h :: i <= h ==> !OccursAt(s, "path", h)
    ensures CaptureFrom(s, i) == None
    decreases |s| - i
  {
    assert !OccursAt(s, "path", i);
    assert MatchAt(s, i) == None;
    if i < |s| {
      NoPathNoCapture(s, i + 1);
    }
  }

  // ---------------------------------------------------------------------------
  // From a captured path to a record

  /** The shape `\d{4}-\d{2}-\d{2}_\d{2}-\d{2}-\d{2}`. */
  predicate IsStamp(t: string) {
    |t| == 19 && t[4] == '-' && t[7] == '-' && t[10] == '_' && t[13] == '-' && t[16] == '-'
    && forall k :: 0 <= k < 19 && k != 4 && k != 7 && k != 10 && k != 13 && k != 16 ==> IsDigit(t[k])
  }

  /** `name.match(/(\d{4}-\d{2}-\d{2}_\d{2}-\d{2}-\d{2})$/)?.[1]` */
  function TrailingStamp(name: string): Option<string> {
    if |name| >= 19 && IsStamp(name[|name| - 19..]) then Some(name[|name| - 19..]) else None
  }

  /** `.replace('_', 'T').replace(/-/g, ':').substring(0, 19)`: the text the
      source hands to `new Date`. */
  function DateText(stamp: string): string {
    Prefix(ReplaceAll(ReplaceFirst(stamp, '_', 'T'), {'-'}, ':'), 19)
  }

  function KindOf(name: string): Kind {
    if Contains(name, "_home_") then Home else Root
  }

  /** The parsed trailing stamp, or the capture time when there is none. */
  function TimestampOf(name: string, dateOf: string -> int, now: int): int {
    match TrailingStamp(name)
    case Some(stamp) => dateOf(DateText(stamp))
    case None => now
  }

  /** The record pushed for a line whose capture is `captured`. */
  function RecordOf(captured: string, targetDir: string, dateOf: string -> int, now: int): Snapshot {
    var name := LastSegment(captured, '/');
    Snapshot(targetDir + "/" + captured, name, KindOf(name), TimestampOf(name, dateOf, now), true)
  }

  lemma {:induction false} ReplaceFirstAt(s: string, from: char, to: char, i: nat)
    requires i < |s| && s[i] == from && from !in s[..i]
    ensures ReplaceFirst(s, from, to) == s[..i] + [to] + s[i + 1..]
  {
    if i > 0 {
      assert s[1..][..i - 1] == s[1..i];
      assert from !in s[1..][..i - 1];
      ReplaceFirstAt(s[1..], from, to, i - 1);
      assert s[1..][i - 1 + 1..] == s[i + 1..];
      assert [s[0]] + s[1..i] == s[..i];
    }
  }

  /** The date text keeps the digits, puts `T` where the `_` was and turns
      EVERY hyphen into `:`, the two date hyphens included, so the text is
      `YYYY:MM:DDTHH:MM:SS`. */
  lemma DateTextShape(stamp: string)
    requires IsStamp(stamp)
    ensures var d := DateText(stamp);
      |d| == 19 && d[10] == 'T'
      && d[4] == ':' && d[7] == ':' && d[13] == ':' && d[16] == ':'
      && forall k :: 0 <= k < 19 && k != 4 && k != 7 && k != 10 && k != 13 && k != 16 ==> d[k] == stamp[k]
  {
    forall k | 0 <= k < 10
      ensures stamp[..10][k] != '_'
    {
      if k != 4 && k != 7 {
        assert IsDigit(stamp[k]);
      }
    }
    assert '_' !in stamp[..10];
    ReplaceFirstAt(stamp, '_', 'T', 10);
    var r := ReplaceFirst(stamp, '_', 'T');
    forall k | 0 <= k < 19 && k != 10
      ensures r[k] == stamp[k] && (r[k] == '-' <==> stamp[k] == '-')
    {
      if k < 10 {
        assert r[k] == stamp[..10][k];
      } else {
        assert r[k] == stamp[11..][k - 11];
      }
    }
  }

  /** What each record says: its path is the target directory joined to the
      capture; its name is the capture's last `/`-segment (a suffix of the
      capture holding no `/`, preceded by `/` unless it is all of it); it is
      a home snapshot exactly when the name contains `_home_`; it is always
      read-only; its timestamp comes from a trailing stamp when the name
      has one and is the capture time otherwise. */
  lemma RecordOfFields(captured: string, targetDir: string, dateOf: string -> int, now: int)
    ensures var r := RecordOf(captured, targetDir, dateOf, now);
      r.path == targetDir + "/" + captured
      && r.readonly
      && '/' !in r.name && |r.name| <= |captured| && captured[|captured| - |r.name|..] == r.name
      && (|r.name| == |captured| || captured[|captured| - |r.name| - 1] == '/')
      && (r.kind == Home <==> Contains(r.name, "_home_"))
      && (TrailingStamp(r.name).None? ==> r.timestamp == now)
      && (TrailingStamp(r.name).Some? ==> r.timestamp == dateOf(DateText(r.name[|r.name| - 19..])))
  {
    LastSegmentIsTail(captured, '/');
  }

  // ---------------------------------------------------------------------------
  // The loop over lines, and the sort

  /** `lines.filter(line => line.trim())` */
  function NonBlank(lines: seq<string>): (r: seq<string>)
    ensures |r| <= |lines|
    ensures forall x :: x in r <==> x in lines && Trim(x) != []
  {
    if lines == [] then []
    else
      var last := lines[|lines| - 1];
      NonBlank(lines[..|lines| - 1]) + (if Trim(last) != [] then [last] else [])
  }

  /** One record per line whose capture exists, in line order. */
  function Records(lines: seq<string>, targetDir: string, dateOf: string -> int, now: int): seq<Snapshot> {
    if lines == [] then []
    else
      var m := PathCapture(lines[|lines| - 1]);
      Records(lines[..|lines| - 1], targetDir, dateOf, now)
      + (if m.Some? then [RecordOf(m.value, targetDir, dateOf, now)] else [])
  }

  /** Places `x` before the first element that is not newer than it. */
  function InsertNewest(x: Snapshot, sorted: seq<Snapshot>): seq<Snapshot> {
    if sorted == [] then [x]
    else if sorted[0].timestamp <= x.timestamp then [x] + sorted
    else [sorted[0]] + InsertNewest(x, sorted[1..])
  }

  /** `snapshots.sort((a, b) => b.timestamp - a.timestamp)`: a stable sort,
      newest first. */
  function NewestFirst(s: seq<Snapshot>): seq<Snapshot> {
    if s == [] then [] else InsertNewest(s[0], NewestFirst(s[1..]))
  }

  predicate IsNewestFirst(s: seq<Snapshot>) {
    forall i, j :: 0 <= i < j < |s| ==> s[i].timestamp >= s[j].timestamp
  }

  predicate NoneNewerThan(s: seq<Snapshot>, t: int) {
    forall k :: 0 <= k < |s| ==> s[k].timestamp <= t
  }

  lemma {:induction false} InsertNewestBounded(x: Snapshot, s: seq<Snapshot>, t: int)
    requires NoneNewerThan(s, t) && x.timestamp <= t
    ensures NoneNewerThan(InsertNewest(x, s), t)
  {
    if s != [] && s[0].timestamp > x.timestamp {
      InsertNewestBounded(x, s[1..], t);
    }
  }

  lemma {:induction false} InsertNewestKeepsOrder(x: Snapshot, s: seq<Snapshot>)
    requires IsNewestFirst(s)
    ensures IsNewestFirst(InsertNewest(x, s))
  {
    if s != [] && s[0].timestamp > x.timestamp {
      InsertNewestKeepsOrder(x, s[1..]);
      InsertNewestBounded(x, s[1..], s[0].timestamp);
    }
  }

  lemma {:induction false} InsertNewestAdds(x: Snapshot, s: seq<Snapshot>)
    ensures multiset(InsertNewest(x, s)) == multiset(s) + multiset{x}
  {
    if s != [] && s[0].timestamp > x.timestamp {
      InsertNewestAdds(x, s[1..]);
      assert s == [s[0]] + s[1..];
    }
  }

  /** The sort returns the same records, newest first. */
  lemma {:induction false} NewestFirstSorts(s: seq<Snapshot>)
    ensures IsNewestFirst(NewestFirst(s))
    ensures multiset(NewestFirst(s)) == multiset(s)
  {
    if s != [] {
      NewestFirstSorts(s[1..]);
      InsertNewestKeepsOrder(s[0], NewestFirst(s[1..]));
      InsertNewestAdds(s[0], NewestFirst(s[1..]));
      assert s == [s[0]] + s[1..];
    }
  }

  /** The body of `listSnapshots` once the listing command has exited 0: a
      loop over the non-blank lines that pushes one record per matching line,
      then the sort. */
  method ParseListing(stdout: string, targetDir: string, dateOf: string -> int, now: int)
    returns (snapshots: seq<Snapshot>)
    ensures snapshots == NewestFirst(Records(NonBlank(Split(stdout, '\n')), targetDir, dateOf, now))
    ensures IsNewestFirst(snapshots)
  {
    var lines := NonBlank(Split(stdout, '\n'));
    var found: seq<Snapshot> := [];
    var i := 0;
    while i < |lines|
      invariant 0 <= i <= |lines|
      invariant found == Records(lines[..i], targetDir, dateOf, now)
    {
      var m := PathCapture(lines[i]);
      if m.Some? {
        found := found + [RecordOf(m.value, targetDir, dateOf, now)];
      }
      assert lines[..i + 1][..i] == lines[..i];
      i := i + 1;
    }
    assert lines[..|lines|] == lines;
    snapshots := NewestFirst(found);
    NewestFirstSorts(found);
  }

  // ---------------------------------------------------------------------------
  // What a listing of well-formed and malformed lines parses to

  /** A line of the listing: a subvolume entry as btrfs prints it, or any
      other text in which `path` does not occur. */
  datatype ListingLine =
    | Entry(id: nat, gen: nat, level: nat, relPath: string)
    | Noise(text: string)

  function RenderLine(l: ListingLine): string {
    match l
    case Entry(id, gen, level, relPath) => Columns(id, gen, level) + " path " + relPath
    case Noise(text) => text
  }

  predicate WellFormedLine(l: ListingLine) {
    match l
    case Entry(_, _, _, relPath) => relPath != [] && !IsSpace(relPath[0]) && NoLineTerminator(relPath)
    case Noise(text) => NoLineTerminator(text) && !Contains(text, "path")
  }

  function RenderAll(ls: seq<ListingLine>): (r: seq<string>)
    ensures |r| == |ls|
  {
    if ls == [] then [] else RenderAll(ls[..|ls| - 1]) + [RenderLine(ls[|ls| - 1])]
  }

  /** The records the entries of a listing stand for, in listing order. */
  function EntryRecords(ls: seq<ListingLine>, targetDir: string, dateOf: string -> int, now: int): seq<Snapshot> {
    if ls == [] then []
    else
      var l := ls[|ls| - 1];
      EntryRecords(ls[..|ls| - 1], targetDir, dateOf, now)
      + (if l.Entry? then [RecordOf(l.relPath, targetDir, dateOf, now)] else [])
  }

  lemma DigitsHaveNoA(n: nat)
    ensures 'a' !in NatToString(n) && NoLineTerminator(NatToString(n))
  {
    NatToStringReadsBack(n);
    var s := NatToString(n);
    forall k | 0 <= k < |s|
      ensures s[k] != 'a' && !IsLineTerminator(s[k])
    {
      assert IsDigit(s[k]);
    }
  }

  /** The capture of `<pre> path <p>` is `p` when no `a` occurs in `pre`
      (as in `ID 256 gen 7 top level 5`). */
  lemma CaptureAfterColumns(pre: string, p: string)
    requires 'a' !in pre && NoLineTerminator(pre)
    requires p != [] && !IsSpace(p[0]) && NoLineTerminator(p)
    ensures PathCapture(pre + " path " + p) == Some(p)
  {
    var s := pre + " path " + p;
    var a := |pre| + 1;
    assert s[a..a + 4] == "path";
    assert Anchor(s, a);
    forall h | 0 <= h < a
      ensures !Anchor(s, h)
    {
      if h + 1 < |pre| {
        assert s[h + 1] == pre[h + 1];
      } else {
        assert s[h + 1] == ' ' || h + 1 == a;
      }
    }
    forall k | 0 <= k < |s|
      ensures !IsLineTerminator(s[k])
    {
      if k < |pre| {
        assert s[k] == pre[k];
      } else if k >= |pre| + 6 {
        assert s[k] == p[k - |pre| - 6];
      }
    }
    CaptureFromFirstAnchor(s, 0, a);
    assert s[a + 5] == p[0];
    assert s[a + 5..] == p;
  }

  function Columns(id: nat, gen: nat, level: nat): string {
    "ID " + NatToString(id) + " gen " + NatToString(gen) + " top level " + NatToString(level)
  }

  lemma NoLineTerminatorConcat(a: string, b: string)
    requires NoLineTerminator(a) && NoLineTerminator(b)
    ensures NoLineTerminator(a + b)
  {
    forall k | 0 <= k < |a + b|
      ensures !IsLineTerminator((a + b)[k])
    {
      if k >= |a| {
        assert (a + b)[k] == b[k - |a|];
      }
    }
  }

  lemma ColumnsClean(id: nat, gen: nat, level: nat)
    ensures 'a' !in Columns(id, gen, level) && NoLineTerminator(Columns(id, gen, level))
  {
    DigitsHaveNoA(id);
    DigitsHaveNoA(gen);
    DigitsHaveNoA(level);
    var i, g, v := NatToString(id), NatToString(gen), NatToString(level);
    NoLineTerminatorConcat("ID ", i);
    NoLineTerminatorConcat("ID " + i, " gen ");
    NoLineTerminatorConcat("ID " + i + " gen ", g);
    NoLineTerminatorConcat("ID " + i + " gen " + g, " top level ");
    NoLineTerminatorConcat("ID " + i + " gen " + g + " top level ", v);
  }

  lemma RenderedLineClean(l: ListingLine)
    requires WellFormedLine(l)
    ensures NoLineTerminator(RenderLine(l))
  {
    if l.Entry? {
      ColumnsClean(l.id, l.gen, l.level);
      NoLineTerminatorConcat(Columns(l.id, l.gen, l.level), " path ");
      NoLineTerminatorConcat(Columns(l.id, l.gen, l.level) + " path ", l.relPath);
    }
  }

  lemma EntryLineCapture(l: ListingLine)
    requires WellFormedLine(l)
    ensures l.Entry? ==> PathCapture(RenderLine(l)) == Some(l.relPath)
    ensures l.Noise? ==> PathCapture(RenderLine(l)) == None
  {
    match l
    case Entry(id, gen, level, relPath) =>
      ColumnsClean(id, gen, level);
      CaptureAfterColumns(Columns(id, gen, level), relPath);
    case Noise(text) =>
      NoPathNoCapture(text, 0);
  }

  lemma RecordsSnoc(ls: seq<string>, l: string, targetDir: string, dateOf: string -> int, now: int)
    ensures Records(ls + [l], targetDir, dateOf, now)
         == Records(ls, targetDir, dateOf, now)
            + (if PathCapture(l).Some? then [RecordOf(PathCapture(l).value, targetDir, dateOf, now)] else [])
  {
    assert (ls + [l])[..|ls|] == ls;
  }

  /** A line of white space has no `path` in it, so it never matches. */
  lemma BlankLineDoesNotMatch(l: string)
    requires Trim(l) == []
    ensures PathCapture(l) == None
  {
    TrimEmptyIff(l);
    forall h | 0 <= h
      ensures !OccursAt(l, "path", h)
    {
      if h < |l| {
        assert IsSpace(l[h]);
      }
    }
    NoPathNoCapture(l, 0);
  }

  lemma {:induction false} BlankLinesDoNotMatch(lines: seq<string>, targetDir: string, dateOf: string -> int, now: int)
    ensures Records(NonBlank(lines), targetDir, dateOf, now) == Records(lines, targetDir, dateOf, now)
  {
    if lines != [] {
      var init, last := lines[..|lines| - 1], lines[|lines| - 1];
      BlankLinesDoNotMatch(init, targetDir, dateOf, now);
      var opt := if PathCapture(last).Some? then [RecordOf(PathCapture(last).value, targetDir, dateOf, now)] else [];
      assert Records(lines, targetDir, dateOf, now) == Records(init, targetDir, dateOf, now) + opt;
      if Trim(last) != [] {
        assert NonBlank(lines) == NonBlank(init) + [last];
        RecordsSnoc(NonBlank(init), last, targetDir, dateOf, now);
      } else {
        assert NonBlank(lines) == NonBlank(init);
        BlankLineDoesNotMatch(last);
      }
    }
  }

  lemma {:induction false} RenderedRecords(ls: seq<ListingLine>, targetDir: string, dateOf: string -> int, now: int)
    requires forall k :: 0 <= k < |ls| ==> WellFormedLine(ls[k])
    ensures Records(RenderAll(ls), targetDir, dateOf, now) == EntryRecords(ls, targetDir, dateOf, now)
  {
    if ls != [] {
      var init := ls[..|ls| - 1];
      RenderedRecords(init, targetDir, dateOf, now);
      EntryLineCapture(ls[|ls| - 1]);
      var r := RenderAll(ls);
      assert r[..|r| - 1] == RenderAll(init);
    }
  }

  lemma RenderedLinesHaveNoNewline(ls: seq<ListingLine>)
    requires forall k :: 0 <= k < |ls| ==> WellFormedLine(ls[k])
    ensures forall k :: 0 <= k < |ls| ==> '\n' !in RenderAll(ls)[k]
  {
    if ls != [] {
      RenderedLinesHaveNoNewline(ls[..|ls| - 1]);
      RenderedLineClean(ls[|ls| - 1]);
    }
  }

  /** A listing made of N well-formed entry lines and any number of
      malformed lines, joined by newlines, parses to exactly one record per
      entry, in listing order, before the sort; the malformed lines raise no
      error and add nothing. */
  lemma ListingRoundTrip(ls: seq<ListingLine>, targetDir: string, dateOf: string -> int, now: int)
    requires forall k :: 0 <= k < |ls| ==> WellFormedLine(ls[k])
    ensures Records(NonBlank(Split(Join(RenderAll(ls), "\n"), '\n')), targetDir, dateOf, now)
         == EntryRecords(ls, targetDir, dateOf, now)
  {
    if ls == [] {
      assert Split("", '\n') == [""];
      TrimEmptyIff("");
      assert NonBlank([""]) == NonBlank([]) + [];
    } else {
      RenderedLinesHaveNoNewline(ls);
      JoinSplit(RenderAll(ls), '\n');
      BlankLinesDoNotMatch(RenderAll(ls), targetDir, dateOf, now);
      RenderedRecords(ls, targetDir, dateOf, now);
    }
  }
}
