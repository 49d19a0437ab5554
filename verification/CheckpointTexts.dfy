/** Checkpoint texts put together from their lines: the smallest conforming ones (internal/compaction/checkpoint.go). */
module CheckpointTexts {
  import opened Text
  import opened Checkpoint

  /** A line that splitting and trimming leave alone: visible at both ends and free of line breaks. */
  predicate IsPlain(line: string) {
    && line != [] && !IsSpace(line[0]) && !IsSpace(line[|line| - 1])
    && '\n' !in line && '\r' !in line
  }

  lemma {:induction false} SplitOne(line: string)
    requires '\n' !in line
    ensures Split(line) == [line]
  {
    if line != [] {
      SplitOne(line[1..]);
      assert [line[0]] + line[1..] == line;
    }
  }

  lemma {:induction false} SplitFirst(line: string, rest: string)
    requires '\n' !in line
    ensures Split(line + "\n" + rest) == [line] + Split(rest)
  {
    var s := line + "\n" + rest;
    if line == [] {
      assert s[1..] == rest;
    } else {
      assert s[1..] == line[1..] + "\n" + rest;
      SplitFirst(line[1..], rest);
      assert [line[0]] + line[1..] == line;
    }
  }

  lemma {:induction false} SplitJoin(lines: seq<string>)
    requires lines != [] && forall i | 0 <= i < |lines| :: IsPlain(lines[i])
    ensures Split(Join(lines, "\n")) == lines
  {
    if |lines| == 1 {
      SplitOne(lines[0]);
    } else {
      SplitJoin(lines[1..]);
      SplitFirst(lines[0], Join(lines[1..], "\n"));
      assert [lines[0]] + lines[1..] == lines;
    }
  }

  lemma {:induction false} JoinShape(lines: seq<string>)
    requires lines != [] && forall i | 0 <= i < |lines| :: IsPlain(lines[i])
    ensures var text := Join(lines, "\n");
      text != [] && !IsSpace(text[0]) && !IsSpace(text[|text| - 1]) && '\r' !in text
  {
    hide IsSpace;
    assert IsPlain(lines[0]);
    if |lines| > 1 {
      JoinShape(lines[1..]);
    }
  }

  lemma {:induction false} NothingToNormalize(s: string)
    requires '\r' !in s
    ensures NormalizeNewlines(s) == s
  {
    if s != [] {
      NothingToNormalize(s[1..]);
    }
  }

  /** Plain lines joined by line breaks are the lines of the text. */
  lemma LinesOfJoin(lines: seq<string>)
    requires lines != [] && forall i | 0 <= i < |lines| :: IsPlain(lines[i])
    ensures Lines(Join(lines, "\n")) == lines && TrimSpace(Join(lines, "\n")) == Join(lines, "\n")
  {
    var text := Join(lines, "\n");
    JoinShape(lines);
    NothingToNormalize(text);
    TrimSpaceFixed(text);
    SplitJoin(lines);
    hide Split, Join, NormalizeNewlines, TrimSpace;
    forall i | 0 <= i < |lines| ensures TrimTail(lines[i]) == lines[i] {
      assert IsPlain(lines[i]);
    }
    assert TrimTails(lines) == lines;
  }

  // ----- the smallest checkpoints -----

  const NO_NEWS := "- none"

  predicate IsPlainBullet(line: string) {
    IsPlain(line) && BULLET_MARK <= line
  }

  /** The nine headings with one bullet each; the first bullet is given. */
  function Skeleton(first: string): (r: seq<string>)
    ensures |r| == 2 * SECTIONS
    ensures forall i | 0 <= i < 2 * SECTIONS :: r[i] == SkeletonLine(first, i)
  {
    seq(2 * SECTIONS, i requires 0 <= i < 2 * SECTIONS => SkeletonLine(first, i))
  }

  function SkeletonLine(first: string, i: nat): string
    requires i < 2 * SECTIONS
  {
    if i % 2 == 0 then HEADING_MARK + HEADINGS[i / 2] else if i == 1 then first else NO_NEWS
  }

  lemma HeadingsArePlain(k: nat)
    requires k < SECTIONS
    ensures IsPlain(HEADING_MARK + HEADINGS[k])
    ensures IsHeading(HEADING_MARK + HEADINGS[k]) && !IsReserved(HEADING_MARK + HEADINGS[k])
  {
    var name := HEADINGS[k];
    HeadingName(k);
    var line := HEADING_MARK + name;
    assert line[0] == '#' && line[2] == ' ' && line[|line| - 1] == name[|name| - 1];
  }

  predicate IsName(name: string) {
    && 0 < |name| < 33 && !IsSpace(name[|name| - 1])
    && forall i | 0 <= i < |name| :: name[i] !in {'\n', '\r', '#'}
  }

  lemma HeadingName(k: nat)
    requires k < SECTIONS
    ensures IsName(HEADINGS[k])
  {
    if k < 3 {
      FirstNames();
    } else if k < 6 {
      MiddleNames();
    } else {
      LastNames();
    }
  }

  lemma FirstNames()
    ensures IsName(HEADINGS[0]) && IsName(HEADINGS[1]) && IsName(HEADINGS[2])
  {
    assert IsName("Goal");
    assert IsName("User constraints and preferences");
    assert IsName("Completed work");
  }

  lemma MiddleNames()
    ensures IsName(HEADINGS[3]) && IsName(HEADINGS[4]) && IsName(HEADINGS[5])
  {
    assert IsName("Work in progress");
    assert IsName("Files changed/read");
    assert IsName("Commands and validation");
  }

  lemma LastNames()
    ensures IsName(HEADINGS[6]) && IsName(HEADINGS[7]) && IsName(HEADINGS[8])
  {
    assert IsName("Decisions");
    assert IsName("Errors and blockers");
    assert IsName("Exact next steps");
  }

  lemma BulletFacts(line: string)
    requires IsPlainBullet(line)
    ensures IsBullet(line) && !IsHeading(line) && !IsReserved(line)
  {
    TrimSpaceFixed(line);
    assert line[0] == '-';
  }

  lemma NoNewsIsPlain()
    ensures IsPlainBullet(NO_NEWS)
  {
  }

  lemma SkeletonLines(first: string, i: nat)
    requires IsPlainBullet(first) && i < 2 * SECTIONS
    ensures var line := SkeletonLine(first, i);
      && IsPlain(line) && !IsReserved(line)
      && (IsHeading(line) <==> i % 2 == 0) && (i % 2 == 1 ==> IsBullet(line))
  {
    hide IsPlain, IsBullet, IsHeading, IsReserved;
    if i % 2 == 0 {
      HeadingsArePlain(i / 2);
    } else if i == 1 {
      BulletFacts(first);
    } else {
      NoNewsIsPlain();
      BulletFacts(NO_NEWS);
    }
  }

  /** The headings of the skeleton are its even lines. */
  lemma {:induction false} SkeletonHeadings(first: string, n: nat)
    requires IsPlainBullet(first) && n <= 2 * SECTIONS
    ensures var h := HeadingIndexes(Skeleton(first)[..n]);
      |h| == (n + 1) / 2 && forall k | 0 <= k < |h| :: h[k] == 2 * k
  {
    hide IsHeading, IsPlainBullet, SkeletonLine;
    if n > 0 {
      SkeletonHeadings(first, n - 1);
      SkeletonLines(first, n - 1);
      assert Skeleton(first)[..n][..n - 1] == Skeleton(first)[..n - 1];
    }
  }

  lemma SkeletonIsOrdered(first: string)
    requires IsPlainBullet(first)
    ensures var lines := Skeleton(first);
      Conforms(lines) && forall i | 0 <= i < |lines| :: IsPlain(lines[i])
  {
    hide IsPlain, IsReserved, HeadingIndexes, IsHeading, IsBullet, IsPlainBullet, SkeletonLine;
    var lines := Skeleton(first);
    var h := HeadingIndexes(lines);
    SkeletonHeadings(first, 2 * SECTIONS);
    assert lines[..2 * SECTIONS] == lines;
    forall i | 0 <= i < |lines| ensures IsPlain(lines[i]) && !IsReserved(lines[i]) {
      SkeletonLines(first, i);
    }
    forall k | 0 <= k < |h| ensures HasBullet(lines, h[k], SectionEnd(lines, h, k)) {
      SkeletonLines(first, 2 * k + 1);
      assert IsBullet(lines[2 * k + 1]);
    }
    forall k | 0 <= k < |h| ensures IsRequiredHeading(lines[h[k]], k) {
      EvenLine(first, k);
    }
  }

  lemma EvenLine(first: string, k: nat)
    requires k < SECTIONS
    ensures SkeletonLine(first, 2 * k) == HEADING_MARK + HEADINGS[k]
  {
  }

  /** Every plain first bullet gives a conforming text. */
  lemma SkeletonConforms(first: string)
    requires IsPlainBullet(first)
    ensures var text := Join(Skeleton(first), "\n");
      Conforms(Lines(text)) && TrimSpace(text) == text && text != ""
  {
    hide IsPlain, Conforms, Lines, Join, TrimSpace, SkeletonLine, IsPlainBullet;
    SkeletonIsOrdered(first);
    LinesOfJoin(Skeleton(first));
    JoinShape(Skeleton(first));
  }

  lemma {:induction false} HeadingsAreLines(lines: seq<string>)
    ensures |HeadingIndexes(lines)| <= |lines|
  {
    if lines != [] {
      HeadingsAreLines(lines[..|lines| - 1]);
    }
  }

  // ----- the lines of a text that has been cut off -----

  lemma NormalizePair(s: string)
    requires |s| >= 2 && s[0] == '\r' && s[1] == '\n'
    ensures NormalizeNewlines(s) == ['\n'] + NormalizeNewlines(s[2..])
  {
  }

  lemma NormalizeChar(s: string)
    requires s != [] && !(|s| >= 2 && s[0] == '\r' && s[1] == '\n')
    ensures NormalizeNewlines(s) == [s[0]] + NormalizeNewlines(s[1..])
  {
  }

  lemma Regrouped(c: char, a: string, b: string)
    ensures [c] + (a + b) == ([c] + a) + b
  {
  }

  lemma PairBefore(a: string, b: string)
    requires |a| >= 2 && a[0] == '\r' && a[1] == '\n'
    requires NormalizeNewlines(a[2..] + b) == NormalizeNewlines(a[2..]) + NormalizeNewlines(b)
    ensures NormalizeNewlines(a + b) == NormalizeNewlines(a) + NormalizeNewlines(b)
  {
    hide NormalizeNewlines;
    NormalizePair(a);
    NormalizePair(a + b);
    assert (a + b)[2..] == a[2..] + b;
    Regrouped('\n', NormalizeNewlines(a[2..]), NormalizeNewlines(b));
  }

  lemma CharBefore(a: string, b: string)
    requires a != [] && !(|a| >= 2 && a[0] == '\r' && a[1] == '\n') && (|a| == 1 ==> a[0] != '\r')
    requires NormalizeNewlines(a[1..] + b) == NormalizeNewlines(a[1..]) + NormalizeNewlines(b)
    ensures NormalizeNewlines(a + b) == NormalizeNewlines(a) + NormalizeNewlines(b)
  {
    hide NormalizeNewlines;
    NormalizeChar(a);
    NormalizeChar(a + b);
    assert (a + b)[1..] == a[1..] + b;
    Regrouped(a[0], NormalizeNewlines(a[1..]), NormalizeNewlines(b));
  }

  lemma {:induction false} NormalizeConcat(a: string, b: string)
    requires a == [] || a[|a| - 1] != '\r'
    ensures NormalizeNewlines(a + b) == NormalizeNewlines(a) + NormalizeNewlines(b)
  {
    if a == [] {
      assert a + b == b && NormalizeNewlines(a) == [];
    } else {
      hide NormalizeNewlines;
      if |a| >= 2 && a[0] == '\r' && a[1] == '\n' {
        NormalizeConcat(a[2..], b);
        PairBefore(a, b);
      } else {
        NormalizeConcat(a[1..], b);
        CharBefore(a, b);
      }
    }
  }

  /** A text that is visible at both ends stays so, and its last character stays the last one. */
  lemma {:induction false} NormalizeEnd(s: string)
    requires s != [] && s[|s| - 1] !in {'\r', '\n'}
    ensures var r := NormalizeNewlines(s); r != [] && r[|r| - 1] == s[|s| - 1] && (s[0] != '\r' ==> r[0] == s[0])
  {
    if |s| >= 2 && s[0] == '\r' && s[1] == '\n' {
      NormalizeEnd(s[2..]);
    } else if |s| > 1 {
      NormalizeEnd(s[1..]);
    }
  }

  /** A text without blank characters at its ends. */
  predicate IsTrimmed(s: string) {
    s == [] || (!IsSpace(s[0]) && !IsSpace(s[|s| - 1]))
  }

  lemma LinesOfTrimmed(s: string)
    requires IsTrimmed(s)
    ensures Lines(s) == TrimTails(Split(NormalizeNewlines(s))) && IsTrimmed(NormalizeNewlines(s))
  {
    if s != [] {
      NormalizeEnd(s);
    }
    TrimSpaceFixed(NormalizeNewlines(s));
  }

  /** The second list, whose first line continues the last line of the first. */
  function Continued(x: seq<string>, y: seq<string>): seq<string>
    requires x != [] && y != []
  {
    x[..|x| - 1] + [x[|x| - 1] + y[0]] + y[1..]
  }

  lemma ContinuedAfterBreak(x: seq<string>, y: seq<string>)
    requires x != [] && y != []
    ensures Continued([""] + x, y) == [""] + Continued(x, y)
  {
    assert ([""] + x)[..|x|] == [""] + x[..|x| - 1];
  }

  lemma ContinuedInLine(c: char, x: seq<string>, y: seq<string>)
    requires x != [] && y != []
    ensures var z := Continued(x, y); Continued([[c] + x[0]] + x[1..], y) == [[c] + z[0]] + z[1..]
  {
    var z := Continued(x, y);
    var longer := [[c] + x[0]] + x[1..];
    if |x| == 1 {
      assert [c] + (x[0] + y[0]) == ([c] + x[0]) + y[0];
      assert z[0] == x[0] + y[0] && z[1..] == y[1..];
    } else {
      assert z[0] == x[0] && z[1..] == x[1..|x| - 1] + [x[|x| - 1] + y[0]] + y[1..];
      assert longer[..|x| - 1] == [[c] + x[0]] + x[1..|x| - 1];
    }
  }

  lemma {:induction false} SplitConcat(a: string, b: string)
    ensures Split(a + b) == Continued(Split(a), Split(b))
  {
    var y := Split(b);
    if a == [] {
      assert a + b == b && "" + y[0] == y[0];
      assert Continued([""], y) == y;
    } else {
      assert (a + b)[1..] == a[1..] + b && (a + b)[0] == a[0];
      SplitConcat(a[1..], b);
      var rest := Split(a[1..]);
      hide Continued;
      if a[0] == '\n' {
        ContinuedAfterBreak(rest, y);
      } else {
        ContinuedInLine(a[0], rest, y);
      }
    }
  }

  lemma {:induction false} SplitEnd(s: string)
    requires s != [] && s[|s| - 1] != '\n'
    ensures var x := Split(s);
      var last := x[|x| - 1];
      last != [] && last[|last| - 1] == s[|s| - 1]
  {
    if |s| > 1 {
      SplitEnd(s[1..]);
    }
  }

  lemma {:induction false} TrimTailKeeps(u: string, v: string)
    requires EndsVisibly(u)
    ensures u <= TrimTail(u + v) && TrimTail(u) == u
  {
    if v == [] {
      assert u + v == u;
    } else {
      var n := |v| - 1;
      assert (u + v)[..|u + v| - 1] == u + v[..n];
      TrimTailKeeps(u, v[..n]);
    }
  }

  /** The first lines of a text, of which the last one may be cut short. */
  ghost predicate IsCutOff(kept: seq<string>, lines: seq<string>) {
    && 0 < |kept| <= |lines|
    && kept[..|kept| - 1] == lines[..|kept| - 1]
    && kept[|kept| - 1] <= lines[|kept| - 1]
  }

  /** Cutting a text off and trimming what is left cuts its lines off. */
  lemma LinesOfPrefix(a: string, b: string)
    requires IsTrimmed(a) && IsTrimmed(a + b)
    ensures IsCutOff(Lines(a), Lines(a + b))
  {
    hide Split, NormalizeNewlines, Lines, IsCutOff, Continued, TrimTails;
    LinesOfTrimmed(a);
    LinesOfTrimmed(a + b);
    LastLineEnds(a);
    NormalizeConcat(a, b);
    SplitConcat(NormalizeNewlines(a), NormalizeNewlines(b));
    ContinuedIsCutOff(Split(NormalizeNewlines(a)), Split(NormalizeNewlines(b)));
  }

  predicate EndsVisibly(line: string) {
    line == [] || line[|line| - 1] !in {' ', '\t'}
  }

  lemma ContinuedIsCutOff(x: seq<string>, y: seq<string>)
    requires x != [] && y != [] && EndsVisibly(x[|x| - 1])
    ensures IsCutOff(TrimTails(x), TrimTails(Continued(x, y)))
  {
    hide TrimTail;
    var m := |x| - 1;
    var all := Continued(x, y);
    TrimTailKeeps(x[m], y[0]);
    assert all[m] == x[m] + y[0];
    var kept, lines := TrimTails(x), TrimTails(all);
    forall i | 0 <= i < m ensures kept[..m][i] == lines[..m][i] {
      assert all[i] == x[i];
    }
    assert kept[..m] == lines[..m];
  }

  lemma LastLineEnds(a: string)
    requires IsTrimmed(a)
    ensures var x := Split(NormalizeNewlines(a)); EndsVisibly(x[|x| - 1])
  {
    LinesOfTrimmed(a);
    if a != [] {
      NormalizeEnd(a);
      SplitEnd(NormalizeNewlines(a));
    }
  }

  // ----- what is left of a conforming text -----

  /** The last heading is still there, and a bullet under it. */
  ghost predicate LastSectionIsFilled(lines: seq<string>) {
    var h := HeadingIndexes(lines);
    |h| == SECTIONS && HasBullet(lines, h[SECTIONS - 1], |lines|)
  }

  /** What is left of a conforming text conforms exactly when the cut leaves the last heading and a bullet under it. */
  lemma CutOffConforms(kept: seq<string>, lines: seq<string>)
    requires Conforms(lines) && IsCutOff(kept, lines)
    ensures Conforms(kept) <==> LastSectionIsFilled(kept)
  {
    hide HeadingIndexes, InOrder, Filled, BlankBeforeHeadings, NothingReserved, IsCutOff, HasBullet;
    if Conforms(kept) {
      LastIsFilled(kept, HeadingIndexes(kept));
    }
    if LastSectionIsFilled(kept) {
      SameHeadings(kept, lines);
      SectionsStayFilled(kept, lines);
      NothingReservedInCut(kept, lines);
      HeadingsStayInOrder(kept, lines, HeadingIndexes(kept));
    }
  }

  lemma LastIsFilled(lines: seq<string>, h: seq<nat>)
    requires |h| == SECTIONS && Filled(lines, h, SECTIONS)
    ensures HasBullet(lines, h[SECTIONS - 1], |lines|)
  {
    hide HasBullet;
    assert SectionEnd(lines, h, SECTIONS - 1) == |lines|;
  }

  lemma SectionsStayFilled(kept: seq<string>, lines: seq<string>)
    requires IsCutOff(kept, lines) && LastSectionIsFilled(kept) && HeadingIndexes(kept) == HeadingIndexes(lines)
    requires Filled(lines, HeadingIndexes(lines), SECTIONS)
    ensures Filled(kept, HeadingIndexes(kept), SECTIONS)
  {
    hide HasBullet, HeadingIndexes, IsCutOff;
    var h := HeadingIndexes(kept);
    forall k | 0 <= k < SECTIONS ensures HasBullet(kept, h[k], SectionEnd(kept, h, k)) {
      if k < SECTIONS - 1 {
        assert HasBullet(lines, h[k], SectionEnd(lines, h, k));
        SameBullets(kept, lines, h[k], h[k + 1]);
      }
    }
  }

  lemma HeadingsStayInOrder(kept: seq<string>, lines: seq<string>, h: seq<nat>)
    requires IsCutOff(kept, lines) && h != [] && InOrder(lines, h) && BlankBeforeHeadings(lines, h)
    requires h[|h| - 1] < |kept| - 1 && forall j, k | 0 <= j < k < |h| :: h[j] < h[k]
    ensures InOrder(kept, h) && BlankBeforeHeadings(kept, h)
  {
    hide TrimSpace, IsRequiredHeading, IsCutOff;
    LinesBeforeCut(kept, lines, h[|h| - 1]);
  }

  lemma LinesBeforeCut(kept: seq<string>, lines: seq<string>, i: nat)
    requires IsCutOff(kept, lines) && i < |kept| - 1
    ensures forall j | 0 <= j <= i :: kept[j] == lines[j]
  {
    forall j | 0 <= j <= i ensures kept[j] == lines[j] {
      assert kept[j] == kept[..|kept| - 1][j] && lines[j] == lines[..|kept| - 1][j];
    }
  }

  lemma SameHeadings(kept: seq<string>, lines: seq<string>)
    requires IsCutOff(kept, lines) && LastSectionIsFilled(kept) && |HeadingIndexes(lines)| == SECTIONS
    ensures HeadingIndexes(kept) == HeadingIndexes(lines) && HeadingIndexes(kept)[SECTIONS - 1] < |kept| - 1
  {
    hide IsHeading, IsBullet, HeadingIndexes;
    var n := |kept| - 1;
    var h, g := HeadingIndexes(kept), HeadingIndexes(lines);
    HeadingsPrefix(kept, n);
    HeadingsPrefix(lines, n);
    assert h[8] < n;
    assert |HeadingIndexes(kept[..n])| == SECTIONS;
  }

  lemma SameBullets(kept: seq<string>, lines: seq<string>, from: nat, to: nat)
    requires IsCutOff(kept, lines) && to < |kept| && HasBullet(lines, from, to)
    ensures HasBullet(kept, from, to)
  {
    var j :| from < j < to && IsBullet(lines[j]);
    LinesBeforeCut(kept, lines, j);
    assert IsBullet(kept[j]);
  }

  lemma NothingReservedInCut(kept: seq<string>, lines: seq<string>)
    requires IsCutOff(kept, lines) && NothingReserved(lines)
    ensures NothingReserved(kept)
  {
    forall i | 0 <= i < |kept| ensures !IsReserved(kept[i]) {
      if i < |kept| - 1 {
        LinesBeforeCut(kept, lines, i);
      }
      assert !IsReserved(lines[i]);
    }
  }
}
