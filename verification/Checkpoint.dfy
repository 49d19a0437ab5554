/** The structure every generated checkpoint must have (internal/compaction/checkpoint.go). */
module Checkpoint {
  import opened Text

  const HEADINGS: seq<string> := [
    "Goal",
    "User constraints and preferences",
    "Completed work",
    "Work in progress",
    "Files changed/read",
    "Commands and validation",
    "Decisions",
    "Errors and blockers",
    "Exact next steps"
  ]

  const SECTIONS := 9
  const HEADING_MARK := "## "
  const RESERVED_MARK := "### Librecode "
  const BULLET_MARK := "- "

  datatype Defect =
    | Reserved(heading: string)
    | Prefix(heading: string)
    | Empty(heading: string)
    | Duplicate(heading: string)
    | Order(heading: string)
    | Missing(heading: string)

  // ----- the lines of a text -----

  /** strings.ReplaceAll(text, "\r\n", "\n"). */
  function NormalizeNewlines(s: string): string {
    if s == [] then []
    else if |s| >= 2 && s[0] == '\r' && s[1] == '\n' then ['\n'] + NormalizeNewlines(s[2..])
    else [s[0]] + NormalizeNewlines(s[1..])
  }

  function Split(s: string): (lines: seq<string>)
    ensures lines != []
  {
    if s == [] then [""]
    else
      var rest := Split(s[1..]);
      if s[0] == '\n' then [""] + rest else [[s[0]] + rest[0]] + rest[1..]
  }

  /** strings.TrimRight(line, " \t"). */
  function TrimTail(line: string): string {
    if line != [] && line[|line| - 1] in {' ', '\t'} then TrimTail(line[..|line| - 1]) else line
  }

  function TrimTails(lines: seq<string>): (r: seq<string>)
    ensures |r| == |lines| && forall i | 0 <= i < |lines| :: r[i] == TrimTail(lines[i])
  {
    seq(|lines|, i requires 0 <= i < |lines| => TrimTail(lines[i]))
  }

  function Lines(text: string): seq<string> {
    TrimTails(Split(TrimSpace(NormalizeNewlines(text))))
  }

  // ----- the grammar -----

  predicate IsHeading(line: string) {
    HEADING_MARK <= line
  }

  predicate IsReserved(line: string) {
    RESERVED_MARK <= line
  }

  predicate IsBullet(line: string) {
    !IsHeading(line) && BULLET_MARK <= TrimSpace(line)
  }

  /** The line is the k-th required heading. */
  predicate IsRequiredHeading(line: string, k: nat) {
    k < SECTIONS && line == HEADING_MARK + HEADINGS[k]
  }

  function HeadingIndexes(lines: seq<string>): (h: seq<nat>)
    ensures forall k | 0 <= k < |h| :: h[k] < |lines| && IsHeading(lines[h[k]])
    ensures forall j, k | 0 <= j < k < |h| :: h[j] < h[k]
  {
    if lines == [] then []
    else
      var n := |lines| - 1;
      HeadingIndexes(lines[..n]) + (if IsHeading(lines[n]) then [n] else [])
  }

  /** Where section k ends: at the next heading, or at the end of the text. */
  function SectionEnd(lines: seq<string>, h: seq<nat>, k: nat): nat {
    if k + 1 < |h| then h[k + 1] else |lines|
  }

  ghost predicate HasBullet(lines: seq<string>, from: int, to: nat) {
    exists j | from < j < to && 0 <= j < |lines| :: IsBullet(lines[j])
  }

  ghost predicate InOrder(lines: seq<string>, h: seq<nat>) {
    forall k | 0 <= k < |h| :: h[k] < |lines| && IsRequiredHeading(lines[h[k]], k)
  }

  /** Each of the first `count` sections holds a bullet. */
  ghost predicate Filled(lines: seq<string>, h: seq<nat>, count: int) {
    forall k | 0 <= k < count && k < |h| :: HasBullet(lines, h[k], SectionEnd(lines, h, k))
  }

  ghost predicate BlankBeforeHeadings(lines: seq<string>, h: seq<nat>) {
    forall i | 0 <= i < |lines| && (h == [] || i < h[0]) :: TrimSpace(lines[i]) == ""
  }

  ghost predicate NothingReserved(lines: seq<string>) {
    forall i | 0 <= i < |lines| :: !IsReserved(lines[i])
  }

  /**
   * The level-two headings are exactly the nine required ones in order, each with a bullet before the next, nothing but
   * blank lines precedes the first, and no line claims a reserved heading.
   */
  ghost predicate Conforms(lines: seq<string>) {
    var h := HeadingIndexes(lines);
    && |h| == SECTIONS
    && InOrder(lines, h)
    && Filled(lines, h, SECTIONS)
    && BlankBeforeHeadings(lines, h)
    && NothingReserved(lines)
  }

  // ----- the scanner -----

  method ValidateNonHeadingLine(line: string, wanted: nat, hasBullet: bool)
    returns (defect: Option<Defect>, bullet: bool)
    ensures defect.Some? <==> IsReserved(line) || (!IsHeading(line) && wanted == 0 && TrimSpace(line) != "")
    ensures defect.None? ==> (bullet <==> hasBullet || (wanted > 0 && IsBullet(line)))
  {
    bullet := hasBullet;
    if RESERVED_MARK <= line {
      return Some(Reserved(line[|"### "|..])), bullet;
    }
    if HEADING_MARK <= line {
      return None, bullet;
    }
    if wanted == 0 && TrimSpace(line) != "" {
      return Some(Prefix(HEADINGS[0])), bullet;
    }
    if wanted > 0 && BULLET_MARK <= TrimSpace(line) {
      bullet := true;
    }
    defect := None;
  }

  method ValidateHeading(heading: string, wanted: nat, hasBullet: bool, seen: set<string>)
    returns (defect: Option<Defect>)
    requires wanted <= SECTIONS
    ensures defect.None? <==>
      && (wanted > 0 ==> hasBullet) && heading !in seen && wanted < SECTIONS && heading == HEADINGS[wanted]
  {
    if wanted > 0 && !hasBullet {
      return Some(Empty(HEADINGS[wanted - 1]));
    }
    if heading in seen {
      return Some(Duplicate(heading));
    }
    if wanted >= |HEADINGS| || heading != HEADINGS[wanted] {
      return Some(Order(heading));
    }
    defect := None;
  }

  method ValidateCheckpointEnd(wanted: nat, hasBullet: bool) returns (defect: Option<Defect>)
    requires wanted <= SECTIONS
    ensures defect.None? <==> wanted == SECTIONS && hasBullet
  {
    if wanted != |HEADINGS| {
      return Some(Missing(HEADINGS[wanted]));
    }
    if !hasBullet {
      return Some(Empty(HEADINGS[|HEADINGS| - 1]));
    }
    defect := None;
  }

  /** What the scanner knows after reading `lines`. */
  ghost predicate Scanned(lines: seq<string>, wanted: nat, hasBullet: bool, seen: set<string>) {
    var h := HeadingIndexes(lines);
    && wanted == |h| <= SECTIONS
    && InOrder(lines, h)
    && Filled(lines, h, wanted - 1)
    && BlankBeforeHeadings(lines, h)
    && NothingReserved(lines)
    && (hasBullet <==> h != [] && HasBullet(lines, h[|h| - 1], |lines|))
    && Seen(seen, wanted)
  }

  /** The headings read so far. */
  ghost predicate Seen(seen: set<string>, wanted: nat) {
    wanted <= SECTIONS && seen == set k: nat | k < wanted :: HEADINGS[k]
  }

  lemma SeenAfter(seen: set<string>, wanted: nat)
    requires Seen(seen, wanted) && wanted < SECTIONS
    ensures Seen(seen + {HEADINGS[wanted]}, wanted + 1)
  {
  }

  lemma HeadingsAfter(lines: seq<string>, line: string)
    ensures HeadingIndexes(lines + [line]) == HeadingIndexes(lines) + (if IsHeading(line) then [|lines|] else [])
  {
    assert (lines + [line])[..|lines|] == lines;
  }

  lemma BulletAfter(lines: seq<string>, line: string, from: nat, to: nat)
    requires from < |lines| && to <= |lines| + 1
    ensures HasBullet(lines + [line], from, to) <==>
      HasBullet(lines, from, to) || (to == |lines| + 1 && IsBullet(line))
  {
    var longer := lines + [line];
    forall j | from < j < |lines| ensures longer[j] == lines[j] {
    }
    if to == |lines| + 1 && IsBullet(line) {
      assert longer[|lines|] == line;
    }
    if HasBullet(lines, from, to) {
      var j :| from < j < to && 0 <= j < |lines| && IsBullet(lines[j]);
      assert IsBullet(longer[j]);
    }
    if HasBullet(longer, from, to) {
      var j :| from < j < to && 0 <= j < |longer| && IsBullet(longer[j]);
      assert j < |lines| ==> IsBullet(lines[j]);
    }
  }

  /** One more line leaves the headings, and the sections that later headings close, as they are. */
  lemma LongerText(lines: seq<string>, line: string, h: seq<nat>, g: seq<nat>, count: int)
    requires InOrder(lines, h) && h <= g && count <= |h| && count < |g|
    requires Filled(lines, h, |h| - 1)
    requires forall j, k | 0 <= j < k < |g| :: g[j] < g[k]
    requires forall k | 0 <= k < |g| :: g[k] <= |lines|
    requires count == |h| > 0 ==> HasBullet(lines, h[|h| - 1], |lines|) && g[|h|] == |lines|
    ensures InOrder(lines + [line], h)
    ensures Filled(lines + [line], g, count)
  {
    hide IsRequiredHeading, IsBullet;
    var longer := lines + [line];
    forall k | 0 <= k < count && k < |g| ensures HasBullet(longer, g[k], SectionEnd(longer, g, k)) {
      assert g[k] == h[k];
      assert k < |h| - 1 ==> HasBullet(lines, h[k], SectionEnd(lines, h, k)) && g[k + 1] == h[k + 1];
      BulletAfter(lines, line, g[k], g[k + 1]);
    }
    assert forall k | 0 <= k < |h| :: longer[h[k]] == lines[h[k]];
  }

  lemma StillBlankBefore(lines: seq<string>, line: string, h: seq<nat>, g: seq<nat>)
    requires BlankBeforeHeadings(lines, h) && h <= g && forall k | 0 <= k < |g| :: g[k] <= |lines|
    requires h == [] ==> g == [|lines|] || (g == [] && TrimSpace(line) == "")
    ensures BlankBeforeHeadings(lines + [line], g)
  {
    hide TrimSpace;
  }

  lemma StillUnreserved(lines: seq<string>, line: string)
    requires NothingReserved(lines) && !IsReserved(line)
    ensures NothingReserved(lines + [line])
  {
    hide IsReserved;
  }

  /** Reading a line that is not a heading. */
  lemma ScannedLine(lines: seq<string>, line: string, wanted: nat, hasBullet: bool, seen: set<string>, bullet: bool)
    requires Scanned(lines, wanted, hasBullet, seen)
    requires !IsReserved(line) && !IsHeading(line) && (wanted == 0 ==> TrimSpace(line) == "")
    requires bullet <==> hasBullet || (wanted > 0 && IsBullet(line))
    ensures Scanned(lines + [line], wanted, bullet, seen)
  {
    hide IsBullet, IsHeading, IsReserved, IsRequiredHeading, HeadingIndexes, HasBullet, Seen, TrimSpace, Filled,
      InOrder, NothingReserved, BlankBeforeHeadings;
    var h := HeadingIndexes(lines);
    HeadingsAfter(lines, line);
    assert h + [] == h;
    if h == [] {
      EmptyForm(lines + [line]);
    } else {
      LongerText(lines, line, h, h, wanted - 1);
      BulletAfter(lines, line, h[|h| - 1], |lines| + 1);
      NoBulletBeyond(lines, h[|h| - 1]);
    }
    StillUnreserved(lines, line);
    StillBlankBefore(lines, line, h, h);
  }

  lemma NoBulletBeyond(lines: seq<string>, from: nat)
    ensures HasBullet(lines, from, |lines| + 1) <==> HasBullet(lines, from, |lines|)
  {
  }

  /** Reading the heading that is wanted next. */
  lemma ScannedHeading(lines: seq<string>, line: string, wanted: nat, hasBullet: bool, seen: set<string>)
    requires Scanned(lines, wanted, hasBullet, seen)
    requires wanted < SECTIONS && IsRequiredHeading(line, wanted)
    requires IsHeading(line) && !IsReserved(line) && (wanted > 0 ==> hasBullet)
    ensures Scanned(lines + [line], wanted + 1, false, seen + {HEADINGS[wanted]})
  {
    hide IsBullet, IsHeading, IsReserved, IsRequiredHeading, HeadingIndexes, HasBullet, Seen, TrimSpace, Filled,
      InOrder, NothingReserved, BlankBeforeHeadings;
    var h := HeadingIndexes(lines);
    var g := h + [|lines|];
    HeadingsAfter(lines, line);
    SeenAfter(seen, wanted);
    NoBulletAtEnd(lines + [line], |lines|);
    LongerText(lines, line, h, g, wanted);
    NextInOrder(lines, line, h);
    StillUnreserved(lines, line);
    StillBlankBefore(lines, line, h, g);
  }

  lemma NextInOrder(lines: seq<string>, line: string, h: seq<nat>)
    requires InOrder(lines + [line], h) && IsRequiredHeading(line, |h|)
    ensures InOrder(lines + [line], h + [|lines|])
  {
  }

  lemma EmptyForm(lines: seq<string>)
    ensures InOrder(lines, []) && Filled(lines, [], -1)
  {
  }

  lemma NoBulletAtEnd(lines: seq<string>, from: nat)
    requires |lines| <= from + 1
    ensures !HasBullet(lines, from, |lines|)
  {
  }

  lemma {:induction false} HeadingsPrefix(lines: seq<string>, i: nat)
    requires i <= |lines|
    ensures HeadingIndexes(lines[..i]) <= HeadingIndexes(lines)
    ensures forall k | |HeadingIndexes(lines[..i])| <= k < |HeadingIndexes(lines)| :: HeadingIndexes(lines)[k] >= i
    decreases |lines|
  {
    var n := |lines|;
    if i < n {
      HeadingsPrefix(lines[..n - 1], i);
      assert lines[..n - 1][..i] == lines[..i];
    } else {
      assert lines[..i] == lines;
    }
  }

  /** A line that the scanner refuses cannot occur at this place in a conforming text. */
  lemma RefusedLine(lines: seq<string>, i: nat, wanted: nat, hasBullet: bool, seen: set<string>)
    requires i < |lines| && Scanned(lines[..i], wanted, hasBullet, seen)
    requires IsReserved(lines[i]) || (!IsHeading(lines[i]) && wanted == 0 && TrimSpace(lines[i]) != "")
    ensures !Conforms(lines)
  {
    hide IsHeading, IsReserved, HeadingIndexes, Seen, TrimSpace, Filled, InOrder, HasBullet;
    HeadingsPrefix(lines, i);
    HeadingsPrefix(lines, i + 1);
    assert lines[..i + 1] == lines[..i] + [lines[i]];
    HeadingsAfter(lines[..i], lines[i]);
  }

  lemma RefusedHeading(lines: seq<string>, i: nat, wanted: nat, hasBullet: bool, seen: set<string>)
    requires i < |lines| && Scanned(lines[..i], wanted, hasBullet, seen) && IsHeading(lines[i])
    requires !((wanted > 0 ==> hasBullet) && lines[i][|HEADING_MARK|..] !in seen && IsRequiredHeading(lines[i], wanted))
    ensures !Conforms(lines)
  {
    hide IsBullet, IsHeading, IsReserved, IsRequiredHeading, HeadingIndexes, Seen, TrimSpace;
    var h, before := HeadingIndexes(lines), HeadingIndexes(lines[..i]);
    HeadingsPrefix(lines, i);
    HeadingsPrefix(lines, i + 1);
    assert lines[..i + 1] == lines[..i] + [lines[i]];
    HeadingsAfter(lines[..i], lines[i]);
    assert h[wanted] == i;
    if IsRequiredHeading(lines[i], wanted) {
      NotSeenBefore(lines[i], wanted, seen);
      var from := h[wanted - 1];
      assert before[wanted - 1] == from && SectionEnd(lines, h, wanted - 1) == i;
      if HasBullet(lines, from, i) {
        BulletInPrefix(lines, i, from);
      }
    }
  }

  lemma BulletInPrefix(lines: seq<string>, i: nat, from: nat)
    requires i <= |lines| && HasBullet(lines, from, i)
    ensures HasBullet(lines[..i], from, i)
  {
    var j :| from < j < i && IsBullet(lines[j]);
    assert lines[..i][j] == lines[j];
  }

  lemma NotSeenBefore(line: string, wanted: nat, seen: set<string>)
    requires IsRequiredHeading(line, wanted) && Seen(seen, wanted)
    ensures line[|HEADING_MARK|..] == HEADINGS[wanted] && line[|HEADING_MARK|..] !in seen
  {
    HeadingsDiffer();
    assert line[|HEADING_MARK|..] == HEADINGS[wanted];
  }

  lemma HeadingsDiffer()
    ensures forall j, k | 0 <= j < k < SECTIONS :: HEADINGS[j] != HEADINGS[k]
  {
    assert |HEADINGS[0]| == 4 && |HEADINGS[1]| == 32 && |HEADINGS[2]| == 14 && |HEADINGS[3]| == 16;
    assert |HEADINGS[4]| == 18 && |HEADINGS[5]| == 23;
    assert |HEADINGS[6]| == 9 && |HEADINGS[7]| == 19 && |HEADINGS[8]| == 16;
    assert HEADINGS[3][0] == 'W' && HEADINGS[8][0] == 'E';
  }

  lemma HeadingText(line: string, wanted: nat)
    requires IsHeading(line)
    ensures IsRequiredHeading(line, wanted) <==> wanted < SECTIONS && line[|HEADING_MARK|..] == HEADINGS[wanted]
  {
    assert line == HEADING_MARK + line[|HEADING_MARK|..];
  }

  lemma ScannedEverything(lines: seq<string>, wanted: nat, hasBullet: bool, seen: set<string>)
    requires Scanned(lines, wanted, hasBullet, seen)
    ensures Conforms(lines) <==> wanted == SECTIONS && hasBullet
  {
    hide IsBullet, IsHeading, IsReserved, IsRequiredHeading, HeadingIndexes, HasBullet, Seen, TrimSpace;
    var h := HeadingIndexes(lines);
    if Conforms(lines) {
      assert HasBullet(lines, h[8], SectionEnd(lines, h, 8));
    }
  }

  /** The scanner accepts a text exactly when its lines conform to the grammar, and never reads past the headings. */
  method ValidateCheckpoint(text: string) returns (defect: Option<Defect>)
    ensures defect.None? <==> Conforms(Lines(text))
  {
    hide Conforms, Scanned, Seen, IsRequiredHeading, HeadingIndexes;
    var lines := Lines(text);
    var wanted := 0;
    var hasBullet := false;
    var seen: set<string> := {};
    ScannedNothing(lines);
    for index := 0 to |lines|
      invariant wanted <= SECTIONS && Scanned(lines[..index], wanted, hasBullet, seen)
    {
      var line := lines[index];
      assert lines[..index + 1] == lines[..index] + [line];
      ghost var bulletBefore := hasBullet;
      defect, hasBullet := ValidateNonHeadingLine(line, wanted, hasBullet);
      if defect.Some? {
        RefusedLine(lines, index, wanted, bulletBefore, seen);
        return;
      }
      if !(HEADING_MARK <= line) {
        ScannedLine(lines[..index], line, wanted, bulletBefore, seen, hasBullet);
        continue;
      }
      var heading := line[|HEADING_MARK|..];
      HeadingText(line, wanted);
      assert hasBullet == bulletBefore;
      defect := ValidateHeading(heading, wanted, hasBullet, seen);
      if defect.Some? {
        RefusedHeading(lines, index, wanted, hasBullet, seen);
        return;
      }
      ScannedHeading(lines[..index], line, wanted, hasBullet, seen);
      seen := seen + {heading};
      wanted := wanted + 1;
      hasBullet := false;
    }
    assert lines[..|lines|] == lines;
    ScannedEverything(lines, wanted, hasBullet, seen);
    defect := ValidateCheckpointEnd(wanted, hasBullet);
  }

  lemma ScannedNothing(lines: seq<string>)
    ensures Scanned(lines[..0], 0, false, {})
  {
    assert lines[..0] == [];
  }

  lemma {:induction false} BlankNormalized(s: string)
    requires Blank(s)
    ensures Blank(NormalizeNewlines(s))
  {
    if s != [] {
      if |s| >= 2 && s[0] == '\r' && s[1] == '\n' {
        BlankNormalized(s[2..]);
      } else {
        BlankNormalized(s[1..]);
      }
    }
  }

  /** A conforming checkpoint is never blank. */
  lemma ConformingIsVisible(text: string)
    ensures Conforms(Lines(text)) ==> TrimSpace(text) != ""
  {
    TrimSpaceBlank(text);
    if Blank(text) {
      BlankNormalized(text);
      TrimSpaceBlank(NormalizeNewlines(text));
      assert TrimSpace(NormalizeNewlines(text)) == "";
      var lines := Lines(text);
      assert lines == [""] && lines[..0] == [];
      assert HeadingIndexes(lines) == [];
    }
  }
}
