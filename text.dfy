/** The JavaScript string operations the backend relies on, with their exact
    edge cases: `split` on a character and on `/\s+/`, `trim`, `includes`,
    `replace` (first occurrence and global), `substring(0, n)`, and the
    conversion of an integer to its decimal text. */
module Text {

  /** The characters `\s` matches in an ECMAScript regular expression; also
      the characters String.prototype.trim removes. */
  predicate IsSpace(c: char) {
    c == '\t' || c == '\n' || c == '\U{000B}' || c == '\U{000C}' || c == '\r' || c == ' '
    || c == '\U{00A0}' || c == '\U{1680}' || ('\U{2000}' <= c <= '\U{200A}')
    || c == '\U{2028}' || c == '\U{2029}' || c == '\U{202F}' || c == '\U{205F}'
    || c == '\U{3000}' || c == '\U{FEFF}'
  }

  /** The characters `.` does not match in an ECMAScript regular expression. */
  predicate IsLineTerminator(c: char) {
    c == '\n' || c == '\r' || c == '\U{2028}' || c == '\U{2029}'
  }

  predicate NoSpace(s: string) {
    forall i :: 0 <= i < |s| ==> !IsSpace(s[i])
  }

  predicate AllSpace(s: string) {
    forall i :: 0 <= i < |s| ==> IsSpace(s[i])
  }

  predicate NoLineTerminator(s: string) {
    forall i :: 0 <= i < |s| ==> !IsLineTerminator(s[i])
  }

  // ---------------------------------------------------------------------------
  // includes / startsWith

  predicate OccursAt(s: string, t: string, i: int) {
    0 <= i && i + |t| <= |s| && s[i..i + |t|] == t
  }

  /** String.prototype.includes */
  predicate Contains(s: string, t: string) {
    exists i :: 0 <= i <= |s| - |t| && OccursAt(s, t, i)
  }

  predicate StartsWith(s: string, t: string) {
    |t| <= |s| && s[..|t|] == t
  }

  lemma ContainsInside(a: string, t: string, b: string)
    ensures Contains(a + t + b, t)
    ensures OccursAt(a + t + b, t, |a|)
  {
    assert (a + t + b)[|a|..|a| + |t|] == t;
    assert OccursAt(a + t + b, t, |a|);
  }

  /** The second and fourth of five joined pieces are contained in the whole. */
  lemma ContainsSecondAndFourth(a: string, b: string, c: string, d: string, e: string)
    ensures Contains(a + b + c + d + e, b) && Contains(a + b + c + d + e, d)
  {
    var s := a + b + c + d + e;
    assert s[|a|..|a| + |b|] == b;
    assert OccursAt(s, b, |a|);
    assert s[|a| + |b| + |c|..|a| + |b| + |c| + |d|] == d;
    assert OccursAt(s, d, |a| + |b| + |c|);
  }

  lemma OccursAtEnd(a: string, t: string)
    ensures OccursAt(a + t, t, |a|)
  {
    assert (a + t)[|a|..|a| + |t|] == t;
  }

  /** An occurrence stays where it is when text is appended. */
  lemma OccursExtend(p: string, q: string, t: string, i: int)
    requires OccursAt(p, t, i)
    ensures OccursAt(p + q, t, i)
  {
    assert (p + q)[i..i + |t|] == p[i..i + |t|];
  }

  /** An occurrence moves by the length of the text prepended. */
  lemma OccursShift(p: string, q: string, t: string, i: int)
    requires OccursAt(q, t, i)
    ensures OccursAt(p + q, t, |p| + i)
  {
    assert (p + q)[|p| + i..|p| + i + |t|] == q[i..i + |t|];
  }

  // ---------------------------------------------------------------------------
  // trim

  function TrimStart(s: string): (r: string)
    ensures |r| <= |s| && r == s[|s| - |r|..]
    ensures AllSpace(s[..|s| - |r|])
    ensures r == [] || !IsSpace(r[0])
  {
    if |s| > 0 && IsSpace(s[0]) then TrimStart(s[1..]) else s
  }

  function TrimEnd(s: string): (r: string)
    ensures |r| <= |s| && r == s[..|r|]
    ensures forall i :: |r| <= i < |s| ==> IsSpace(s[i])
    ensures r == [] || !IsSpace(r[|r| - 1])
  {
    if |s| > 0 && IsSpace(s[|s| - 1]) then TrimEnd(s[..|s| - 1]) else s
  }

  /** String.prototype.trim */
  function Trim(s: string): string {
    TrimEnd(TrimStart(s))
  }

  /** A string trims to nothing exactly when it is all white space. */
  lemma TrimEmptyIff(s: string)
    ensures Trim(s) == [] <==> AllSpace(s)
  {
    var a := TrimStart(s);
    if !AllSpace(s) {
      var k :| 0 <= k < |s| && !IsSpace(s[k]);
      assert k >= |s| - |a|;
      assert !IsSpace(a[k - (|s| - |a|)]);
    }
  }

  /** Surrounding white space is exactly what trim removes. */
  lemma TrimPadded(pre: string, w: string, post: string)
    requires AllSpace(pre) && AllSpace(post)
    requires w != [] && !IsSpace(w[0]) && !IsSpace(w[|w| - 1])
    ensures Trim(pre + w + post) == w
  {
    TrimStartPadded(pre, w + post);
    assert pre + w + post == pre + (w + post);
    TrimEndPadded(w, post);
  }

  lemma {:induction false} TrimStartPadded(pre: string, rest: string)
    requires AllSpace(pre)
    requires rest != [] && !IsSpace(rest[0])
    ensures TrimStart(pre + rest) == rest
  {
    if pre != [] {
      assert (pre + rest)[1..] == pre[1..] + rest;
      TrimStartPadded(pre[1..], rest);
    } else {
      assert pre + rest == rest;
    }
  }

  lemma {:induction false} TrimEndPadded(w: string, post: string)
    requires AllSpace(post)
    requires w != [] && !IsSpace(w[|w| - 1])
    ensures TrimEnd(w + post) == w
  {
    if post != [] {
      assert (w + post)[..|w + post| - 1] == w + post[..|post| - 1];
      TrimEndPadded(w, post[..|post| - 1]);
    } else {
      assert w + post == w;
    }
  }

  // ---------------------------------------------------------------------------
  // split on a character, join

  /** String.prototype.split with a one-character separator: always at least
      one part; consecutive separators give empty parts. */
  function Split(s: string, sep: char): (parts: seq<string>)
    ensures |parts| >= 1
    decreases |s|
  {
    if |s| == 0 then [""]
    else
      var rest := Split(s[1..], sep);
      if s[0] == sep then [""] + rest else [[s[0]] + rest[0]] + rest[1..]
  }

  /** Array.prototype.join */
  function Join(parts: seq<string>, sep: string): string {
    if |parts| == 0 then ""
    else if |parts| == 1 then parts[0]
    else parts[0] + sep + Join(parts[1..], sep)
  }

  /** No part of a split holds the separator, and joining the parts back gives
      the original text. */
  lemma {:induction false} SplitJoin(s: string, sep: char)
    ensures Join(Split(s, sep), [sep]) == s
    ensures forall k :: 0 <= k < |Split(s, sep)| ==> sep !in Split(s, sep)[k]
  {
    if |s| > 0 {
      var rest := Split(s[1..], sep);
      SplitJoin(s[1..], sep);
      if s[0] == sep {
        assert Split(s, sep) == [""] + rest;
        if |rest| == 1 {
          assert Join(Split(s, sep), [sep]) == "" + [sep] + rest[0];
        } else {
          assert (([""] + rest)[1..]) == rest;
        }
      } else {
        var parts := Split(s, sep);
        assert parts == [[s[0]] + rest[0]] + rest[1..];
        if |rest| > 1 {
          assert parts[1..] == rest[1..];
          assert Join(rest, [sep]) == rest[0] + [sep] + Join(rest[1..], [sep]);
        }
        forall k | 0 <= k < |parts|
          ensures sep !in parts[k]
        {
          if k > 0 {
            assert parts[k] == rest[k];
          }
        }
      }
    }
  }

  lemma {:induction false} SplitNoSeparator(a: string, sep: char)
    requires sep !in a
    ensures Split(a, sep) == [a]
  {
    if |a| > 0 {
      SplitNoSeparator(a[1..], sep);
      assert [a[0]] + a[1..] == a;
    }
  }

  lemma {:induction false} SplitAfterPart(a: string, sep: char, b: string)
    requires sep !in a
    ensures Split(a + [sep] + b, sep) == [a] + Split(b, sep)
  {
    var s := a + [sep] + b;
    if |a| == 0 {
      assert s[1..] == b;
    } else {
      assert s[1..] == a[1..] + [sep] + b;
      SplitAfterPart(a[1..], sep, b);
      assert [a[0]] + a[1..] == a;
    }
  }

  /** Splitting text joined from separator-free parts gives the parts back. */
  lemma {:induction false} JoinSplit(parts: seq<string>, sep: char)
    requires |parts| >= 1
    requires forall k :: 0 <= k < |parts| ==> sep !in parts[k]
    ensures Split(Join(parts, [sep]), sep) == parts
  {
    if |parts| == 1 {
      SplitNoSeparator(parts[0], sep);
    } else {
      JoinSplit(parts[1..], sep);
      SplitAfterPart(parts[0], sep, Join(parts[1..], [sep]));
      assert [parts[0]] + parts[1..] == parts;
    }
  }

  /** `s.split('/').pop() || ''`: the text after the last separator. */
  function LastSegment(s: string, sep: char): string {
    var parts := Split(s, sep);
    parts[|parts| - 1]
  }

  /** The last segment holds no separator and is a suffix of the text that
      is either all of it or preceded by a separator. */
  lemma {:induction false} LastSegmentIsTail(s: string, sep: char)
    ensures var r := LastSegment(s, sep);
      sep !in r && |r| <= |s| && s[|s| - |r|..] == r
      && (|r| == |s| || s[|s| - |r| - 1] == sep)
  {
    var parts := Split(s, sep);
    var r := parts[|parts| - 1];
    SplitJoin(s, sep);
    JoinLastPart(parts, [sep]);
    assert sep !in r;
    if |parts| == 1 {
      assert s == r;
    } else {
      assert s[|s| - |r| - 1..|s| - |r|] == [sep];
      assert s[|s| - |r| - 1] == s[|s| - |r| - 1..|s| - |r|][0];
    }
  }

  lemma {:induction false} JoinLastPart(parts: seq<string>, sep: string)
    requires |parts| >= 1
    ensures var j := Join(parts, sep); var r := parts[|parts| - 1];
      |r| <= |j| && j[|j| - |r|..] == r
      && (|parts| == 1 ==> j == r)
      && (|parts| > 1 ==> |r| + |sep| <= |j| && j[|j| - |r| - |sep|..|j| - |r|] == sep)
  {
    if |parts| > 1 {
      JoinLastPart(parts[1..], sep);
      var tail := Join(parts[1..], sep);
      assert Join(parts, sep) == parts[0] + sep + tail;
      assert parts[|parts| - 1] == parts[1..][|parts[1..]| - 1];
      if |parts| == 2 {
        assert tail == parts[1];
      }
    }
  }

  // ---------------------------------------------------------------------------
  // split(/\s+/)

  /** Drops the leading run of white space. */
  function DropSpaces(s: string): (r: string)
    ensures |r| <= |s| && r == s[|s| - |r|..]
    ensures r == [] || !IsSpace(r[0])
  {
    if |s| > 0 && IsSpace(s[0]) then DropSpaces(s[1..]) else s
  }

  /** String.prototype.split(/\s+/): every maximal run of white space is one
      separator, so leading or trailing white space gives an empty first or
      last field, and the empty string gives one empty field. */
  function SplitWs(s: string): (fields: seq<string>)
    ensures |fields| >= 1
    decreases |s|
  {
    if |s| == 0 then [""]
    else if IsSpace(s[0]) then [""] + SplitWs(DropSpaces(s[1..]))
    else
      var rest := SplitWs(s[1..]);
      [[s[0]] + rest[0]] + rest[1..]
  }

  lemma {:induction false} DropSpacesOver(gap: string, b: string)
    requires AllSpace(gap)
    requires b == [] || !IsSpace(b[0])
    ensures DropSpaces(gap + b) == b
  {
    if gap == [] {
      assert gap + b == b;
    } else {
      assert (gap + b)[1..] == gap[1..] + b;
      DropSpacesOver(gap[1..], b);
    }
  }

  lemma {:induction false} SplitWsWord(w: string)
    requires NoSpace(w)
    ensures SplitWs(w) == [w]
  {
    if |w| > 0 {
      SplitWsWord(w[1..]);
      assert [w[0]] + w[1..] == w;
    }
  }

  lemma {:induction false} SplitWsAfterField(w: string, gap: string, b: string)
    requires NoSpace(w)
    requires gap != [] && AllSpace(gap)
    requires b == [] || !IsSpace(b[0])
    ensures SplitWs(w + gap + b) == [w] + SplitWs(b)
  {
    var s := w + gap + b;
    if |w| == 0 {
      assert s == gap + b;
      assert s[1..] == gap[1..] + b;
      DropSpacesOver(gap[1..], b);
    } else {
      assert s[1..] == w[1..] + gap + b;
      SplitWsAfterField(w[1..], gap, b);
      assert [w[0]] + w[1..] == w;
    }
  }

  /** Text made of non-empty, space-free fields separated by one white-space
      run splits back into exactly those fields. */
  lemma {:induction false} JoinSplitWs(fields: seq<string>, gap: string)
    requires |fields| >= 1
    requires forall k :: 0 <= k < |fields| ==> fields[k] != [] && NoSpace(fields[k])
    requires gap != [] && AllSpace(gap)
    ensures SplitWs(Join(fields, gap)) == fields
  {
    if |fields| == 1 {
      SplitWsWord(fields[0]);
    } else {
      var tail := Join(fields[1..], gap);
      JoinSplitWs(fields[1..], gap);
      JoinFirstChar(fields[1..], gap);
      SplitWsAfterField(fields[0], gap, tail);
      assert [fields[0]] + fields[1..] == fields;
    }
  }

  lemma {:induction false} JoinFirstChar(fields: seq<string>, gap: string)
    requires |fields| >= 1 && fields[0] != []
    ensures Join(fields, gap) != [] && Join(fields, gap)[0] == fields[0][0]
  {
    if |fields| > 1 {
      assert Join(fields, gap) == fields[0] + gap + Join(fields[1..], gap);
    }
  }

  /** A character in neither the parts nor the separator is not in the
      joined text. */
  lemma JoinAvoids(parts: seq<string>, gap: string, c: char)
    requires c !in gap
    requires forall k :: 0 <= k < |parts| ==> c !in parts[k]
    ensures c !in Join(parts, gap)
  {
    if |parts| > 1 {
      JoinAvoids(parts[1..], gap, c);
    }
  }

  /** Every part occurs in the joined text. */
  lemma {:induction false} JoinHasPart(parts: seq<string>, gap: string, k: nat)
    requires k < |parts|
    ensures Contains(Join(parts, gap), parts[k])
  {
    var j := Join(parts, gap);
    if |parts| == 1 {
      assert OccursAt(j, parts[k], 0) by { assert j[0..|j|] == j; }
    } else if k == 0 {
      assert j == parts[0] + (gap + Join(parts[1..], gap));
      assert OccursAt(j, parts[0], 0) by { assert j[0..|parts[0]|] == parts[0]; }
    } else {
      var tail := Join(parts[1..], gap);
      JoinHasPart(parts[1..], gap, k - 1);
      var i :| 0 <= i <= |tail| - |parts[k]| && OccursAt(tail, parts[k], i);
      OccursShift(parts[0] + gap, tail, parts[k], i);
    }
  }

  // ---------------------------------------------------------------------------
  // replace, substring

  /** String.prototype.replace with a one-character string pattern: only the
      first occurrence is replaced. */
  function ReplaceFirst(s: string, from: char, to: char): (r: string)
    ensures |r| == |s|
  {
    if |s| == 0 then s
    else if s[0] == from then [to] + s[1..]
    else [s[0]] + ReplaceFirst(s[1..], from, to)
  }

  /** String.prototype.replace with a global character-class pattern: every
      character in `from` becomes `to`. */
  function ReplaceAll(s: string, from: set<char>, to: char): (r: string)
    ensures |r| == |s|
    ensures forall i :: 0 <= i < |s| ==> r[i] == if s[i] in from then to else s[i]
  {
    if |s| == 0 then s
    else [if s[0] in from then to else s[0]] + ReplaceAll(s[1..], from, to)
  }

  /** String.prototype.substring(0, n) for n >= 0. */
  function Prefix(s: string, n: nat): (r: string)
    ensures |r| == if |s| <= n then |s| else n
    ensures r == s[..|r|]
  {
    if |s| <= n then s else s[..n]
  }

  // ---------------------------------------------------------------------------
  // numbers as text

  predicate IsDigit(c: char) {
    '0' <= c <= '9'
  }

  function DigitChar(d: nat): char
    requires d < 10
  {
    ['0', '1', '2', '3', '4', '5', '6', '7', '8', '9'][d]
  }

  /** Decimal text of a natural number, as JavaScript prints an integer. */
  function NatToString(n: nat): string
    decreases n
  {
    if n < 10 then [DigitChar(n)] else NatToString(n / 10) + [DigitChar(n % 10)]
  }

  /** Decimal text of an integer, with a leading '-' when negative. */
  function IntToString(i: int): string {
    if i < 0 then "-" + NatToString(-i) else NatToString(i)
  }

  /** The value a string of decimal digits denotes. */
  function DigitsValue(s: string): int
    requires forall k :: 0 <= k < |s| ==> IsDigit(s[k])
  {
    if |s| == 0 then 0 else 10 * DigitsValue(s[..|s| - 1]) + (s[|s| - 1] as int - '0' as int)
  }

  /** The decimal text of a number is all digits and reads back as that number. */
  lemma {:induction false} NatToStringReadsBack(n: nat)
    ensures var s := NatToString(n);
      s != [] && (forall k :: 0 <= k < |s| ==> IsDigit(s[k])) && DigitsValue(s) == n
  {
    var s := NatToString(n);
    if n >= 10 {
      NatToStringReadsBack(n / 10);
      assert s[..|s| - 1] == NatToString(n / 10);
    }
  }
}
