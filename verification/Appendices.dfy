/**
 * The deterministic appendices of a checkpoint: one writer, and the stripper that undoes it
 * (internal/compaction/appendices.go).
 */
module Appendices {
  import opened Text

  datatype FileOperation = FileOperation(action: string, path: string, tool: string)
  datatype ValidationRecord = ValidationRecord(entryId: string, command: string, outcome: string)
  datatype ActiveWorkRecord = ActiveWorkRecord(kind: string, id: string, state: string, owningSession: string)

  const MAX_FILE_OPERATIONS := 64
  const MAX_VALIDATION_RECORDS := 32
  const MAX_ACTIVE_WORK_RECORDS := 32
  const FILE_TOKEN_LIMIT := 1024
  const VALIDATION_TOKEN_LIMIT := 1024
  const ACTIVE_WORK_TOKEN_LIMIT := 768

  const MARK := "### Librecode "
  const FILE_HEADING := MARK + "file operations"
  const VALIDATION_HEADING := MARK + "validation records"
  const ACTIVE_WORK_HEADING := MARK + "active work records"
  const LEGACY_HEADING := "File operations preserved during compaction:"

  /** In the order in which the stripper looks for them. */
  function StrippedHeading(i: nat): string
    requires i < 4
  {
    if i == 0 then FILE_HEADING
    else if i == 1 then VALIDATION_HEADING
    else if i == 2 then ACTIVE_WORK_HEADING
    else LEGACY_HEADING
  }

  // ----- cutting at a heading -----

  predicate OccursAt(s: string, sub: string, i: nat) {
    i + |sub| <= |s| && s[i..i + |sub|] == sub
  }

  ghost predicate Occurs(s: string, sub: string) {
    exists i: nat :: OccursAt(s, sub, i)
  }

  /** The part of a text before the first occurrence of `sub`, or all of it (strings.Cut). */
  method Cut(s: string, sub: string) returns (before: string)
    ensures before == CutAt(s, sub, 0)
  {
    var i := 0;
    while i + |sub| <= |s|
      invariant i <= |s| + 1
      invariant CutAt(s, sub, 0) == CutAt(s, sub, i)
    {
      if s[i..i + |sub|] == sub {
        return s[..i];
      }
      i := i + 1;
    }
    before := s;
  }

  function CutAt(s: string, sub: string, from: nat): string
    decreases |s| + 1 - from
  {
    if from + |sub| > |s| then s
    else if OccursAt(s, sub, from) then s[..from]
    else CutAt(s, sub, from + 1)
  }

  lemma {:induction false} CutIsFirst(s: string, sub: string, from: nat)
    requires forall i: nat | i < from :: !OccursAt(s, sub, i)
    ensures var r := CutAt(s, sub, from);
      && |r| <= |s| && r == s[..|r|]
      && (r != s ==> OccursAt(s, sub, |r|))
      && (forall i: nat | i < |r| :: !OccursAt(s, sub, i))
      && (Occurs(s, sub) && sub != "" ==> r != s)
    decreases |s| + 1 - from
  {
    if from + |sub| > |s| || OccursAt(s, sub, from) {
    } else {
      CutIsFirst(s, sub, from + 1);
    }
  }

  /** Cutting where a heading first occurs. */
  lemma CutExactly(s: string, sub: string, at: nat)
    requires sub != "" && OccursAt(s, sub, at) && forall i: nat | i < at :: !OccursAt(s, sub, i)
    ensures CutAt(s, sub, 0) == s[..at]
  {
    CutIsFirst(s, sub, 0);
  }

  /** The text after the stripper has looked for the headings i.. . */
  function CutFrom(s: string, i: nat): string
    requires i <= 4
    decreases 4 - i
  {
    if i == 4 then s else CutFrom(CutAt(s, StrippedHeading(i), 0), i + 1)
  }

  function Strip(s: string): string {
    TrimSpace(CutFrom(s, 0))
  }

  method StripDeterministicState(summary: string) returns (r: string)
    ensures r == Strip(summary)
  {
    var text := summary;
    for i := 0 to 4
      invariant CutFrom(text, i) == CutFrom(summary, 0)
    {
      text := Cut(text, StrippedHeading(i));
    }
    r := TrimSpace(text);
  }

  // ----- bounded sections -----

  function Marker(omitted: nat): string {
    "- ... " + Decimal(omitted) + " older records omitted"
  }

  function Estimates(lines: seq<string>): nat {
    if lines == [] then 0 else EstimateTokens(lines[0]) + Estimates(lines[1..])
  }

  lemma EstimatesTail(lines: seq<string>, i: nat)
    requires i < |lines|
    ensures Estimates(lines[i..]) == EstimateTokens(lines[i]) + Estimates(lines[i + 1..])
  {
    assert lines[i..][0] == lines[i] && lines[i..][1..] == lines[i + 1..];
  }

  /** The section with the first `omitted` lines left out: the rest, and a marker that counts what is missing. */
  function Shown(lines: seq<string>, omitted: nat): seq<string>
    requires omitted <= |lines|
  {
    if omitted == 0 then lines else lines[omitted..] + [Marker(omitted)]
  }

  predicate Fits(lines: seq<string>, omitted: nat, heading: nat, limit: nat)
    requires omitted <= |lines|
  {
    heading + Estimates(Shown(lines, omitted)) <= limit
  }

  /** Leaving out fewer lines does not fit. */
  ghost predicate NoneFitsBefore(lines: seq<string>, omitted: nat, heading: nat, limit: nat)
    requires omitted <= |lines|
  {
    forall j: nat | j < omitted :: !Fits(lines, j, heading, limit)
  }

  /**
   * A section's lines: as many of the newest as fit together with the marker for the rest, and nothing at all when not
   * even the marker fits.
   */
  ghost predicate IsBounded(lines: seq<string>, shown: seq<string>, heading: nat, limit: nat, omitted: nat) {
    && omitted <= |lines| && NoneFitsBefore(lines, omitted, heading, limit)
    && (if Fits(lines, omitted, heading, limit) then shown == Shown(lines, omitted)
        else omitted == |lines| && shown == [])
  }

  /** A bounded section stays within the limit, when its heading does. */
  lemma BoundedStaysWithin(lines: seq<string>, shown: seq<string>, heading: nat, limit: nat, omitted: nat)
    requires IsBounded(lines, shown, heading, limit, omitted) && heading <= limit
    ensures heading + Estimates(shown) <= limit
  {
  }

  lemma {:induction false} EstimatesShrink(lines: seq<string>, j: nat, k: nat)
    requires j <= k <= |lines|
    ensures Estimates(lines[k..]) <= Estimates(lines[j..])
    decreases k - j
  {
    hide EstimateTokens;
    if j < k {
      EstimatesTail(lines, j);
      EstimatesShrink(lines, j + 1, k);
    }
  }

  lemma ShownCosts(lines: seq<string>, j: nat)
    requires j <= |lines|
    ensures Estimates(Shown(lines, j)) == Estimates(lines[j..]) + (if j == 0 then 0 else EstimateTokens(Marker(j)))
  {
    hide EstimateTokens, Marker;
    if j == 0 {
      assert lines[0..] == lines;
    } else {
      EstimatesAppend(lines[j..], Marker(j));
    }
  }

  /** When the newest lines from k on are too many already, so is every longer section. */
  lemma TooManyAlready(lines: seq<string>, k: nat, heading: nat, limit: nat)
    requires k < |lines| && heading + Estimates(lines[k..]) > limit
    ensures NoneFitsBefore(lines, k + 1, heading, limit)
  {
    hide EstimateTokens, Marker, Estimates, Shown;
    forall j: nat | j <= k ensures !Fits(lines, j, heading, limit) {
      ShownCosts(lines, j);
      EstimatesShrink(lines, j, k);
    }
  }

  /** The newest lines that fit: `omitted` older ones do not. */
  method KeepNewest(lines: seq<string>, heading: nat, limit: nat) returns (omitted: nat, used: nat)
    ensures omitted <= |lines|
    ensures used == heading + Estimates(lines[omitted..])
    ensures omitted < |lines| ==> used <= limit
    ensures omitted > 0 ==> used + EstimateTokens(lines[omitted - 1]) > limit
  {
    hide EstimateTokens;
    used := heading;
    omitted := |lines|;
    while omitted > 0
      invariant 0 <= omitted <= |lines|
      invariant used == heading + Estimates(lines[omitted..])
      invariant omitted < |lines| ==> used <= limit
    {
      var cost := EstimateTokens(lines[omitted - 1]);
      if used + cost > limit {
        return;
      }
      EstimatesTail(lines, omitted - 1);
      omitted := omitted - 1;
      used := used + cost;
    }
  }

  /** Makes room for the marker by dropping the oldest kept lines. */
  method AppendOmissionMarker(
    lines: seq<string>, kept: seq<string>, before: nat, omittedBefore: nat, heading: nat, limit: nat)
    returns (shown: seq<string>)
    requires 0 < omittedBefore <= |lines| && kept == lines[omittedBefore..]
    requires before == heading + Estimates(kept) && NoneFitsBefore(lines, omittedBefore, heading, limit)
    ensures exists omitted :: omittedBefore <= omitted && IsBounded(lines, shown, heading, limit, omitted)
  {
    hide EstimateTokens, Marker, Fits;
    var count := omittedBefore;
    var used := before;
    var marker := Marker(count);
    shown := kept;
    while |shown| > 0 && used + EstimateTokens(marker) > limit
      invariant omittedBefore <= count <= |lines| && shown == lines[count..] && marker == Marker(count)
      invariant used == heading + Estimates(shown) && NoneFitsBefore(lines, count, heading, limit)
    {
      FitsExactly(lines, count, heading, limit);
      EstimatesTail(lines, count);
      used := used - EstimateTokens(shown[0]);
      shown := shown[1..];
      count := count + 1;
      marker := Marker(count);
    }
    FitsExactly(lines, count, heading, limit);
    if used + EstimateTokens(marker) > limit {
      assert IsBounded(lines, shown, heading, limit, count);
      return;
    }
    shown := shown + [marker];
    assert IsBounded(lines, shown, heading, limit, count);
  }

  lemma FitsExactly(lines: seq<string>, count: nat, heading: nat, limit: nat)
    requires 0 < count <= |lines|
    ensures Fits(lines, count, heading, limit) <==>
      heading + Estimates(lines[count..]) + EstimateTokens(Marker(count)) <= limit
  {
    hide EstimateTokens, Marker, Shown;
    ShownCosts(lines, count);
  }

  lemma {:induction false} EstimatesAppend(lines: seq<string>, line: string)
    ensures Estimates(lines + [line]) == Estimates(lines) + EstimateTokens(line)
  {
    hide EstimateTokens;
    if lines == [] {
      assert lines + [line] == [line] && [line][1..] == [];
    } else {
      assert (lines + [line])[1..] == lines[1..] + [line];
      EstimatesAppend(lines[1..], line);
    }
  }

  lemma EverythingFits(lines: seq<string>, heading: nat, limit: nat)
    requires heading + Estimates(lines[0..]) <= limit
    ensures IsBounded(lines, lines[0..], heading, limit, 0)
  {
    assert lines[0..] == lines;
  }

  /** Adds a section for the lines, unless there are none. */
  method AppendBoundedSection(sections: seq<string>, heading: string, lines: seq<string>, limit: nat)
    returns (r: seq<string>, ghost shown: seq<string>, ghost omitted: nat)
    ensures lines == [] ==> r == sections
    ensures lines != [] ==> r == sections + [heading + "\n" + Join(shown, "\n")]
    ensures lines != [] ==> IsBounded(lines, shown, EstimateTokens(heading), limit, omitted)
    ensures EstimateTokens(heading) <= limit ==> EstimateTokens(heading) + Estimates(shown) <= limit
  {
    hide EstimateTokens, Marker, Join, IsBounded;
    if |lines| == 0 {
      return sections, [], 0;
    }
    var older, used := KeepNewest(lines, EstimateTokens(heading), limit);
    var kept := lines[older..];
    omitted := 0;
    if older > 0 {
      EstimatesTail(lines, older - 1);
      TooManyAlready(lines, older - 1, EstimateTokens(heading), limit);
      kept := AppendOmissionMarker(lines, kept, used, older, EstimateTokens(heading), limit);
      omitted :| older <= omitted && IsBounded(lines, kept, EstimateTokens(heading), limit, omitted);
    } else {
      EverythingFits(lines, EstimateTokens(heading), limit);
    }
    shown := kept;
    if EstimateTokens(heading) <= limit {
      BoundedStaysWithin(lines, shown, EstimateTokens(heading), limit, omitted);
    }
    r := sections + [heading + "\n" + Join(kept, "\n")];
  }

  function RetainNewest<T>(records: seq<T>, limit: nat): seq<T> {
    if |records| <= limit then records else records[|records| - limit..]
  }

  function FileLine(record: FileOperation): string {
    "- " + record.action + ": " + record.path + (if record.tool == "" then "" else " (via " + record.tool + ")")
  }

  function ValidationLine(record: ValidationRecord): string {
    "- " + record.outcome + ": " + record.command + " (entry " + record.entryId + ")"
  }

  function ActiveWorkLine(record: ActiveWorkRecord): string {
    "- " + record.kind + " " + record.id + ": " + record.state +
    (if record.owningSession == "" then "" else " (session " + record.owningSession + ")")
  }

  /** What follows the stripped summary: nothing, or a blank line and a text that starts with an appendix heading. */
  predicate StartsAppendix(rest: string) {
    rest == "" || exists i: nat | i < 3 :: "\n\n" + StrippedHeading(i) <= rest
  }

  lemma {:induction false} JoinAppend(parts: seq<string>, part: string)
    requires parts != []
    ensures Join(parts + [part], "\n\n") == Join(parts, "\n\n") + "\n\n" + part
  {
    if |parts| == 1 {
      assert parts + [part] == [parts[0], part];
      assert [parts[0], part][1..] == [part];
    } else {
      assert (parts + [part])[1..] == parts[1..] + [part];
      JoinAppend(parts[1..], part);
      var rest := Join(parts[1..], "\n\n");
      assert parts[0] + "\n\n" + (rest + "\n\n" + part) == (parts[0] + "\n\n" + rest) + "\n\n" + part;
    }
  }

  lemma AppendixGrows(t: string, text: string, section: string, i: nat)
    requires t <= text && StartsAppendix(text[|t|..]) && i < 3 && StrippedHeading(i) <= section
    ensures t <= text + "\n\n" + section && StartsAppendix((text + "\n\n" + section)[|t|..])
  {
    hide StrippedHeading;
    var longer := text + "\n\n" + section;
    var rest := text[|t|..];
    assert longer[|t|..] == rest + "\n\n" + section;
    if rest == "" {
      assert longer[|t|..] == "\n\n" + section;
      assert "\n\n" + StrippedHeading(i) <= "\n\n" + section;
    } else {
      var k: nat :| k < 3 && "\n\n" + StrippedHeading(k) <= rest;
      assert "\n\n" + StrippedHeading(k) <= longer[|t|..];
    }
  }

  function FileLines(files: seq<FileOperation>): seq<string> {
    if files == [] then [] else FileLines(files[..|files| - 1]) + [FileLine(files[|files| - 1])]
  }

  function ValidationLines(records: seq<ValidationRecord>): seq<string> {
    if records == [] then [] else ValidationLines(records[..|records| - 1]) + [ValidationLine(records[|records| - 1])]
  }

  function ActiveWorkLines(records: seq<ActiveWorkRecord>): seq<string> {
    if records == [] then [] else ActiveWorkLines(records[..|records| - 1]) + [ActiveWorkLine(records[|records| - 1])]
  }

  /** `after` is `before` with the bounded section of the lines, if there are any. */
  ghost predicate Adds(before: seq<string>, after: seq<string>, heading: string, lines: seq<string>, limit: nat) {
    if lines == [] then after == before
    else exists shown, omitted ::
      && IsBounded(lines, shown, EstimateTokens(heading), limit, omitted)
      && after == before + [heading + "\n" + Join(shown, "\n")]
  }

  /** The stripped summary and the sections added to it one after the other: files, validations, active work. */
  ghost predicate IsChain(
    chain: seq<seq<string>>, summary: string,
    files: seq<FileOperation>, validations: seq<ValidationRecord>, work: seq<ActiveWorkRecord>)
  {
    && |chain| == 4 && chain[0] == [Strip(summary)]
    && Adds(chain[0], chain[1], FILE_HEADING, FileLines(RetainNewest(files, MAX_FILE_OPERATIONS)), FILE_TOKEN_LIMIT)
    && Adds(chain[1], chain[2], VALIDATION_HEADING,
      ValidationLines(RetainNewest(validations, MAX_VALIDATION_RECORDS)), VALIDATION_TOKEN_LIMIT)
    && Adds(chain[2], chain[3], ACTIVE_WORK_HEADING,
      ActiveWorkLines(RetainNewest(work, MAX_ACTIVE_WORK_RECORDS)), ACTIVE_WORK_TOKEN_LIMIT)
  }

  /** The only writer of appendices. Whatever the records are, stripping its result gives the stripped summary back. */
  method AppendDeterministicState(
    summary: string, files: seq<FileOperation>, validations: seq<ValidationRecord>, work: seq<ActiveWorkRecord>)
    returns (r: string, ghost chain: seq<seq<string>>)
    ensures Strip(r) == Strip(summary)
    ensures IsChain(chain, summary, files, validations, work) && r == TrimSpace(Join(chain[3], "\n\n"))
  {
    hide Strip, StartsAppendix, EstimateTokens, TrimSpace, Adds, Join, FileLines, ValidationLines, ActiveWorkLines;
    var stripped := StripDeterministicState(summary);
    var fileLines := FormatFiles(RetainNewest(files, MAX_FILE_OPERATIONS));
    var validationLines := FormatValidations(RetainNewest(validations, MAX_VALIDATION_RECORDS));
    var workLines := FormatActiveWork(RetainNewest(work, MAX_ACTIVE_WORK_RECORDS));
    SingleSection(stripped);
    var first := AddSection(stripped, [stripped], 0, fileLines, FILE_TOKEN_LIMIT);
    var second := AddSection(stripped, first, 1, validationLines, VALIDATION_TOKEN_LIMIT);
    var third := AddSection(stripped, second, 2, workLines, ACTIVE_WORK_TOKEN_LIMIT);
    chain := [[stripped], first, second, third];
    var text := Join(third, "\n\n");
    r := TrimSpace(text);
    ghost var rest := text[|stripped|..];
    assert text == stripped + rest;
    StripUndoesAppend(summary, rest);
  }

  method FormatFiles(files: seq<FileOperation>) returns (lines: seq<string>)
    ensures lines == FileLines(files)
  {
    hide FileLine;
    lines := [];
    for i := 0 to |files|
      invariant lines == FileLines(files[..i])
    {
      lines := lines + [FileLine(files[i])];
      assert files[..i + 1][..i] == files[..i];
    }
    assert files[..|files|] == files;
  }

  method FormatValidations(records: seq<ValidationRecord>) returns (lines: seq<string>)
    ensures lines == ValidationLines(records)
  {
    hide ValidationLine;
    lines := [];
    for i := 0 to |records|
      invariant lines == ValidationLines(records[..i])
    {
      lines := lines + [ValidationLine(records[i])];
      assert records[..i + 1][..i] == records[..i];
    }
    assert records[..|records|] == records;
  }

  method FormatActiveWork(records: seq<ActiveWorkRecord>) returns (lines: seq<string>)
    ensures lines == ActiveWorkLines(records)
  {
    hide ActiveWorkLine;
    lines := [];
    for i := 0 to |records|
      invariant lines == ActiveWorkLines(records[..i])
    {
      lines := lines + [ActiveWorkLine(records[i])];
      assert records[..i + 1][..i] == records[..i];
    }
    assert records[..|records|] == records;
  }

  lemma SingleSection(t: string)
    ensures Join([t], "\n\n") == t && StartsAppendix(Join([t], "\n\n")[|t|..])
  {
  }

  method AddSection(ghost t: string, sections: seq<string>, i: nat, lines: seq<string>, limit: nat)
    returns (r: seq<string>)
    requires i < 3 && sections != []
    requires t <= Join(sections, "\n\n") && StartsAppendix(Join(sections, "\n\n")[|t|..])
    ensures r != [] && t <= Join(r, "\n\n") && StartsAppendix(Join(r, "\n\n")[|t|..])
    ensures Adds(sections, r, StrippedHeading(i), lines, limit)
  {
    hide StartsAppendix, EstimateTokens, IsBounded, StrippedHeading, Join;
    ghost var shown, omitted;
    r, shown, omitted := AppendBoundedSection(sections, StrippedHeading(i), lines, limit);
    if lines != [] {
      var section := StrippedHeading(i) + "\n" + Join(shown, "\n");
      JoinAppend(sections, section);
      AppendixGrows(t, Join(sections, "\n\n"), section, i);
    }
  }

  // ----- strip undoes append -----

  predicate IsHeadingText(h: string) {
    |h| > 14 && '\n' !in h && !IsSpace(h[0]) && !IsSpace(h[|h| - 1])
  }

  lemma MarkedName(name: string)
    requires name != "" && '\n' !in name && !IsSpace(name[|name| - 1])
    ensures IsHeadingText(MARK + name)
  {
    assert '\n' !in MARK && MARK[0] == '#' && |MARK| == 14;
    assert (MARK + name)[|MARK + name| - 1] == name[|name| - 1];
  }

  lemma LegacyIsHeading()
    ensures IsHeadingText(LEGACY_HEADING)
  {
  }

  lemma HeadingsAreTexts(i: nat)
    requires i < 4
    ensures IsHeadingText(StrippedHeading(i))
  {
    hide IsHeadingText;
    if i == 0 {
      MarkedName("file operations");
    } else if i == 1 {
      MarkedName("validation records");
    } else if i == 2 {
      MarkedName("active work records");
    } else {
      LegacyIsHeading();
    }
  }

  lemma HeadingsHaveNoBreaks(i: nat)
    requires i < 4
    ensures '\n' !in StrippedHeading(i) && |StrippedHeading(i)| > 14
    ensures !IsSpace(StrippedHeading(i)[0]) && !IsSpace(StrippedHeading(i)[|StrippedHeading(i)| - 1])
  {
    hide StrippedHeading, IsSpace;
    HeadingsAreTexts(i);
  }

  /** The first three headings have the hash sign only in front and differ in the letter after the mark. */
  lemma MarkedHeadings(i: nat)
    requires i < 3
    ensures var h := StrippedHeading(i);
      && |h| > 14 && h[0] == '#' && h[1] == '#' && h[2] == '#' && h[3] == ' '
      && (forall o | 3 <= o < |h| :: h[o] != '#')
      && h[14] == (if i == 0 then 'f' else if i == 1 then 'v' else 'a')
  {
    var h := StrippedHeading(i);
    var name := if i == 0 then "file operations" else if i == 1 then "validation records" else "active work records";
    assert h == MARK + name;
    assert MARK == "###" + " Librecode " && '#' !in " Librecode ";
    assert '#' !in name;
    forall o | 3 <= o < |h| ensures h[o] != '#' {
      if o < 14 {
        assert h[o] == " Librecode "[o - 3];
      } else {
        assert h[o] == name[o - 14];
      }
    }
  }

  /** No marked heading starts inside another one. */
  lemma HeadingsDoNotOverlap(s: string, at: nat, i: nat, k: nat, o: nat)
    requires i < 3 && k < 3 && i != k && OccursAt(s, StrippedHeading(k), at) && o < |StrippedHeading(k)|
    ensures !OccursAt(s, StrippedHeading(i), at + o)
  {
    MarkedHeadings(i);
    MarkedHeadings(k);
    hide StrippedHeading;
    var h, g := StrippedHeading(k), StrippedHeading(i);
    var c := if o == 0 then 14 else if o == 1 then 2 else if o == 2 then 1 else 0;
    assert s[at..at + |h|][o + c] == s[at + o + c];
    if at + o + |g| <= |s| {
      assert s[at + o..at + o + |g|][c] == s[at + o + c];
    }
  }

  ghost predicate Clean(t: string) {
    forall i: nat | i < 4 :: !Occurs(t, StrippedHeading(i))
  }

  lemma SliceOfSlice(s: string, lo: nat, hi: nat, from: nat, to: nat)
    requires lo <= hi <= |s| && from <= to <= hi - lo
    ensures s[lo..hi][from..to] == s[lo + from..lo + to]
  {
    var a, b := s[lo..hi][from..to], s[lo + from..lo + to];
    assert forall c | 0 <= c < to - from :: a[c] == b[c];
  }

  lemma SubstringOccurs(s: string, lo: nat, hi: nat, sub: string)
    requires lo <= hi <= |s| && Occurs(s[lo..hi], sub)
    ensures Occurs(s, sub)
  {
    var i: nat :| OccursAt(s[lo..hi], sub, i);
    SliceOfSlice(s, lo, hi, i, i + |sub|);
    assert OccursAt(s, sub, lo + i);
  }

  lemma CutRemoves(s: string, sub: string)
    requires sub != ""
    ensures !Occurs(CutAt(s, sub, 0), sub)
  {
    var r := CutAt(s, sub, 0);
    CutIsFirst(s, sub, 0);
    hide CutAt;
    forall i: nat ensures !OccursAt(r, sub, i) {
      if i + |sub| <= |r| {
        assert r[i..i + |sub|] == s[i..i + |sub|];
        assert !OccursAt(s, sub, i);
      }
    }
  }

  lemma {:induction false} CutFromCleans(s: string, i: nat)
    requires i <= 4
    requires forall j: nat | j < i :: !Occurs(s, StrippedHeading(j))
    ensures Clean(CutFrom(s, i))
    decreases 4 - i
  {
    if i < 4 {
      var r := CutAt(s, StrippedHeading(i), 0);
      HeadingsHaveNoBreaks(i);
      CutIsFirst(s, StrippedHeading(i), 0);
      CutRemoves(s, StrippedHeading(i));
      assert s[0..|r|] == r;
      forall j: nat | j <= i ensures !Occurs(r, StrippedHeading(j)) {
        if Occurs(r, StrippedHeading(j)) && j < i {
          SubstringOccurs(s, 0, |r|, StrippedHeading(j));
        }
      }
      CutFromCleans(r, i + 1);
    }
  }

  lemma CleanInside(s: string, lo: nat, hi: nat)
    requires lo <= hi <= |s| && Clean(s)
    ensures Clean(s[lo..hi])
  {
    hide StrippedHeading, Occurs;
    forall i: nat | i < 4 ensures !Occurs(s[lo..hi], StrippedHeading(i)) {
      if Occurs(s[lo..hi], StrippedHeading(i)) {
        SubstringOccurs(s, lo, hi, StrippedHeading(i));
      }
    }
  }

  lemma TrimmedInside(s: string)
    ensures exists lo: nat, hi: nat :: lo <= hi <= |s| && TrimSpace(s) == s[lo..hi]
  {
    hide IsSpace;
    var left := TrimLeft(s);
    TrimLeftShape(s);
    TrimRightShape(left);
    var lo, hi := |s| - |left|, |s| - |left| + |TrimSpace(s)|;
    assert TrimSpace(s) == left[..|TrimSpace(s)|] == s[lo..hi];
  }

  /** A stripped summary contains no appendix heading and is trimmed. */
  lemma StripCleans(s: string)
    ensures Clean(Strip(s)) && TrimSpace(Strip(s)) == Strip(s)
  {
    var text := CutFrom(s, 0);
    CutFromCleans(s, 0);
    TrimSpaceShape(text);
    TrimSpaceFixed(Strip(s));
    hide CutFrom, StrippedHeading, IsSpace, Clean, TrimSpace;
    TrimmedInside(text);
    var lo: nat, hi: nat :| lo <= hi <= |text| && TrimSpace(text) == text[lo..hi];
    CleanInside(text, lo, hi);
  }

  /** No heading starts before the appendix: not in the clean text, and not across the blank line. */
  lemma NothingBeforeAppendix(s: string, t: string, p: string, sub: string, i: nat)
    requires p == t + "\n\n" || (p == t && (t == "" || s == t))
    requires p <= s && !Occurs(t, sub) && '\n' !in sub && sub != "" && i < |p|
    ensures !OccursAt(s, sub, i)
  {
    if i + |sub| <= |t| {
      assert t[i..i + |sub|] == s[i..i + |sub|];
      assert !OccursAt(t, sub, i);
    } else if p != t && i + |sub| <= |s| {
      var breakAt := if i < |t| then |t| else i;
      assert s[i..i + |sub|][breakAt - i] == s[breakAt];
      assert s[breakAt] == p[breakAt] == '\n';
    }
  }

  /** A pass for another heading cuts behind the first heading, if it cuts at all. */
  lemma CutBehindHeading(s: string, t: string, p: string, k: nat, i: nat)
    requires k < 3 && i < k && !Occurs(t, StrippedHeading(i)) && (p == t + "\n\n" || p == t == "")
    requires p <= s && OccursAt(s, StrippedHeading(k), |p|)
    ensures var r := CutAt(s, StrippedHeading(i), 0);
      p <= r && OccursAt(r, StrippedHeading(k), |p|)
  {
    hide StrippedHeading, CutAt, Occurs;
    var h, g := StrippedHeading(i), StrippedHeading(k);
    var r := CutAt(s, h, 0);
    HeadingsHaveNoBreaks(i);
    CutIsFirst(s, h, 0);
    forall j: nat | j < |p| + |g| ensures !OccursAt(s, h, j) {
      if j < |p| {
        NothingBeforeAppendix(s, t, p, h, j);
      } else {
        HeadingsDoNotOverlap(s, |p|, i, k, j - |p|);
      }
    }
    assert |r| >= |p| + |g|;
    assert r[|p|..|p| + |g|] == s[|p|..|p| + |g|];
  }

  /** The stripper's passes up to the one that finds the first heading cut the text exactly there. */
  lemma {:induction false} CutKeepsFirstHeading(s: string, t: string, p: string, k: nat, i: nat)
    requires k < 3 && i <= k && Clean(t) && (p == t + "\n\n" || p == t == "")
    requires p <= s && OccursAt(s, StrippedHeading(k), |p|)
    ensures CutFrom(s, i) == CutFrom(p, k + 1)
    decreases k - i
  {
    hide StrippedHeading, CutAt, OccursAt, Occurs;
    if i == k {
      CutAtAppendix(s, t, p, k);
    } else {
      CutBehindHeading(s, t, p, k, i);
      CutKeepsFirstHeading(CutAt(s, StrippedHeading(i), 0), t, p, k, i + 1);
    }
  }

  /** The pass for the first appendix heading cuts the text exactly there. */
  lemma CutAtAppendix(s: string, t: string, p: string, k: nat)
    requires k < 3 && Clean(t) && (p == t + "\n\n" || p == t == "")
    requires p <= s && OccursAt(s, StrippedHeading(k), |p|)
    ensures CutAt(s, StrippedHeading(k), 0) == p
  {
    var h := StrippedHeading(k);
    HeadingsHaveNoBreaks(k);
    hide StrippedHeading, CutAt, OccursAt, Occurs;
    forall j: nat | j < |p| ensures !OccursAt(s, h, j) {
      NothingBeforeAppendix(s, t, p, h, j);
    }
    CutExactly(s, h, |p|);
    assert s[..|p|] == p;
  }

  /** Once the appendix is cut off, the later passes find nothing. */
  lemma {:induction false} CutLeavesClean(t: string, p: string, i: nat)
    requires i <= 4 && Clean(t) && (p == t || p == t + "\n\n")
    ensures CutFrom(p, i) == p
    decreases 4 - i
  {
    if i < 4 {
      var h := StrippedHeading(i);
      HeadingsHaveNoBreaks(i);
      CutIsFirst(p, h, 0);
      forall j: nat | j < |p| ensures !OccursAt(p, h, j) {
        NothingBeforeAppendix(p, t, p, h, j);
      }
      CutLeavesClean(t, p, i + 1);
    }
  }

  /** What stands before the appendix once the text is trimmed. */
  function BeforeAppendix(t: string): string {
    if t == "" then "" else t + "\n\n"
  }

  /** Trimming a clean text with an appendix keeps the appendix's heading. */
  lemma TrimmedAppendix(t: string, rest: string, k: nat)
    requires k < 3 && TrimSpace(t) == t && "\n\n" + StrippedHeading(k) <= rest
    ensures var s, p := TrimSpace(t + rest), BeforeAppendix(t);
      p <= s && OccursAt(s, StrippedHeading(k), |p|)
  {
    hide StrippedHeading, IsSpace, TrimRight, TrimLeft, TrimSpace;
    var h := StrippedHeading(k);
    HeadingsHaveNoBreaks(k);
    var body := rest[2..];
    assert rest == "\n\n" + body && h <= body;
    LeftOfAppendix(t, body);
    KeepsPrefix(BeforeAppendix(t) + body, BeforeAppendix(t), h);
    TrimSpaceIsBoth(t + rest);
  }

  lemma TrimSpaceIsBoth(s: string)
    ensures TrimSpace(s) == TrimRight(TrimLeft(s))
  {
  }

  lemma LeftOfAppendix(t: string, body: string)
    requires TrimSpace(t) == t && body != "" && !IsSpace(body[0])
    ensures TrimLeft(t + ("\n\n" + body)) == BeforeAppendix(t) + body
  {
    TrimSpaceShape(t);
    hide IsSpace, TrimSpace;
    if t == "" {
      BlankBreaks();
      assert t + ("\n\n" + body) == "\n\n" + body && BeforeAppendix(t) + body == body;
      TrimLeftDropsBlank("\n\n", body);
    } else {
      assert t + ("\n\n" + body) == BeforeAppendix(t) + body;
    }
  }

  lemma BlankBreaks()
    ensures Blank("\n\n")
  {
  }

  /** TrimRight never removes a visible character. */
  lemma KeepsVisible(s: string, i: nat)
    requires i < |s| && !IsSpace(s[i])
    ensures i < |TrimRight(s)|
  {
    TrimRightShape(s);
    var r := TrimRight(s);
    assert forall j | |r| <= j < |s| :: s[|r|..][j - |r|] == s[j];
  }

  /** Trimming on the right keeps a prefix that ends in a visible character. */
  lemma KeepsPrefix(s: string, p: string, h: string)
    requires p + h <= s && h != "" && !IsSpace(h[|h| - 1])
    ensures p <= TrimRight(s) && OccursAt(TrimRight(s), h, |p|)
  {
    hide IsSpace, TrimRight;
    var end := |p| + |h|;
    assert s[end - 1] == h[|h| - 1];
    KeepsVisible(s, end - 1);
    TrimRightShape(s);
    assert TrimRight(s)[|p|..end] == h;
  }

  /**
   * Round trip: for every summary and whatever text of appendices follows it, stripping undoes appending. So appending
   * again replaces the appendices and never accumulates them.
   */
  lemma StripUndoesAppend(summary: string, rest: string)
    requires StartsAppendix(rest)
    ensures Strip(TrimSpace(Strip(summary) + rest)) == Strip(summary)
  {
    var t := Strip(summary);
    StripCleans(summary);
    hide Clean, TrimSpace, StrippedHeading, CutFrom;
    if rest == "" {
      assert t + rest == t;
      CutLeavesClean(t, t, 0);
    } else {
      var k: nat :| k < 3 && "\n\n" + StrippedHeading(k) <= rest;
      var p := BeforeAppendix(t);
      TrimmedAppendix(t, rest, k);
      CutKeepsFirstHeading(TrimSpace(t + rest), t, p, k, 0);
      CutLeavesClean(t, p, k + 1);
      TrimBeforeAppendix(t);
    }
  }

  lemma TrimBeforeAppendix(t: string)
    requires TrimSpace(t) == t
    ensures TrimSpace(BeforeAppendix(t)) == t
  {
    if t != "" {
      TrimSpaceShape(t);
      hide IsSpace;
      BlankBreaks();
      TrimRightDropsBlank(t, "\n\n");
      assert TrimLeft(t + "\n\n") == t + "\n\n" && TrimLeft(t) == t;
    }
  }

  /** Stripping cannot make a blank text visible. */
  lemma StripKeepsBlank(s: string)
    ensures TrimSpace(Strip(s)) != "" ==> TrimSpace(s) != ""
  {
    TrimSpaceBlank(s);
    if Blank(s) {
      var text := CutFrom(s, 0);
      CutFromPrefix(s, 0);
      TrimSpaceBlank(text);
      assert Strip(s) == "";
    }
  }

  lemma {:induction false} CutFromPrefix(s: string, i: nat)
    requires i <= 4
    ensures CutFrom(s, i) <= s
    decreases 4 - i
  {
    if i < 4 {
      CutIsFirst(s, StrippedHeading(i), 0);
      CutFromPrefix(CutAt(s, StrippedHeading(i), 0), i + 1);
    }
  }
}
