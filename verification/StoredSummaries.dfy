/**
 * From the summary that the reducer accepts to the one that is stored (internal/assistant/context_compaction.go and
 * internal/compaction/appendices.go together).
 */
module StoredSummaries {
  import opened Text
  import opened Checkpoint
  import opened CheckpointTexts
  import opened Appendices
  import opened Reducer
  import opened Compactions

  /** Stripping a trimmed text leaves a trimmed prefix of it. */
  lemma StripLeavesPrefix(text: string)
    requires TrimSpace(text) == text
    ensures Strip(text) <= text && IsTrimmed(text) && IsTrimmed(Strip(text))
  {
    var cut := CutFrom(text, 0);
    CutFromPrefix(text, 0);
    TrimSpaceShape(text);
    TrimSpaceShape(cut);
    hide CutFrom, TrimRight, IsSpace;
    TrimRightShape(cut);
    assert TrimLeft(cut) == cut;
  }

  /**
   * The last validation before a compaction is appended strips the stored text and validates the rest. A summary that
   * the reducer accepted passes it exactly when the last of the nine headings, and a bullet under it, come before the
   * first appendix heading that the summary quotes; without such a heading it always does.
   */
  lemma AcceptableIsAccepted(text: string, maxTokens: int, stored: string)
    requires Acceptable(text, maxTokens) && Strip(stored) == Strip(text)
    ensures Accepted(stored) <==> LastSectionIsFilled(Lines(Strip(text)))
    ensures Clean(text) ==> Accepted(stored) && Strip(stored) == text
  {
    hide Conforms, Lines, TrimSpace, CutFrom, Strip, LastSectionIsFilled;
    var kept := Strip(text);
    StripLeavesPrefix(text);
    assert text == kept + text[|kept|..];
    LinesOfPrefix(kept, text[|kept|..]);
    CutOffConforms(Lines(kept), Lines(text));
    if Clean(text) {
      CleanIsKept(text);
    }
  }

  lemma CleanIsKept(text: string)
    requires Clean(text) && TrimSpace(text) == text
    ensures Strip(text) == text
  {
    CutLeavesClean(text, text, 0);
  }

  // ----- a text that is accepted -----

  lemma NotAcrossBreak(a: string, rest: string, sub: string, i: nat)
    requires '\n' !in sub
    ensures OccursAt(a + "\n" + rest, sub, i) ==> i + |sub| <= |a| || i > |a|
  {
    var s := a + "\n" + rest;
    if i <= |a| < i + |sub| <= |s| {
      assert s[i..i + |sub|][|a| - i] == s[|a|];
    }
  }

  /** A text without line breaks that occurs in joined lines occurs in one of them. */
  lemma {:induction false} OccursInSomeLine(lines: seq<string>, sub: string, i: nat) returns (k: nat)
    requires lines != [] && sub != "" && '\n' !in sub && OccursAt(Join(lines, "\n"), sub, i)
    ensures k < |lines| && Occurs(lines[k], sub)
  {
    if |lines| == 1 {
      k := 0;
      assert OccursAt(lines[0], sub, i);
    } else {
      var a, rest := lines[0], Join(lines[1..], "\n");
      var s := a + "\n" + rest;
      NotAcrossBreak(a, rest, sub, i);
      if i + |sub| <= |a| {
        assert a[i..i + |sub|] == s[i..i + |sub|];
        assert OccursAt(a, sub, i);
        k := 0;
      } else {
        var j: nat := i - |a| - 1;
        assert rest[j..j + |sub|] == s[i..i + |sub|];
        var later := OccursInSomeLine(lines[1..], sub, j);
        k := later + 1;
      }
    }
  }

  /** The lines of the skeleton hold no hash sign behind the second place and are too short for the legacy heading. */
  predicate HoldsNoHeading(line: string) {
    |line| < |LEGACY_HEADING| && forall i | 2 <= i < |line| :: line[i] != '#'
  }

  lemma NoHeadingInLine(line: string, i: nat)
    requires HoldsNoHeading(line) && i < 4
    ensures !Occurs(line, StrippedHeading(i))
  {
    var sub := StrippedHeading(i);
    if i < 3 {
      MarkedHeadings(i);
    }
    hide StrippedHeading;
    forall j: nat ensures !OccursAt(line, sub, j) {
      if i < 3 && j + |sub| <= |line| {
        assert line[j..j + |sub|][2] == line[j + 2];
      }
    }
  }

  lemma HeadingHoldsNoHeading(name: string)
    requires IsName(name)
    ensures HoldsNoHeading(HEADING_MARK + name)
  {
    var line := HEADING_MARK + name;
    forall j | 2 <= j < |line| ensures line[j] != '#' {
      assert line[j] == if j == 2 then ' ' else name[j - 3];
    }
  }

  lemma SkeletonHoldsNoHeading(i: nat)
    requires i < 2 * SECTIONS
    ensures HoldsNoHeading(SkeletonLine(NO_NEWS, i))
  {
    if i % 2 == 0 {
      HeadingName(i / 2);
      hide HoldsNoHeading, IsName;
      HeadingHoldsNoHeading(HEADINGS[i / 2]);
    }
  }

  lemma SkeletonIsClean()
    ensures Clean(Join(Skeleton(NO_NEWS), "\n"))
  {
    var lines := Skeleton(NO_NEWS);
    hide Join, StrippedHeading, SkeletonLine, HoldsNoHeading;
    forall i: nat | i < 4 ensures !Occurs(Join(lines, "\n"), StrippedHeading(i)) {
      HeadingsHaveNoBreaks(i);
      forall j: nat ensures !OccursAt(Join(lines, "\n"), StrippedHeading(i), j) {
        if OccursAt(Join(lines, "\n"), StrippedHeading(i), j) {
          var k := OccursInSomeLine(lines, StrippedHeading(i), j);
          SkeletonHoldsNoHeading(k);
          NoHeadingInLine(lines[k], i);
        }
      }
    }
  }

  /** There are summaries that the guard of a compaction accepts. */
  lemma SomeSummaryIsAccepted() returns (summary: string)
    ensures Accepted(summary)
  {
    hide Conforms, Lines, Join, Skeleton, TrimSpace, EstimateTokens, Clean, Strip, LastSectionIsFilled;
    NoNewsIsPlain();
    SkeletonConforms(NO_NEWS);
    SkeletonIsClean();
    summary := Join(Skeleton(NO_NEWS), "\n");
    AcceptableIsAccepted(summary, EstimateTokens(summary), summary);
  }

  // ----- a text that the reducer accepts and the guard refuses -----

  const BEFORE_HEADING := "## Goal\n- see "
  const QUOTING_BULLET := "- see " + FILE_HEADING

  lemma QuotingBulletIsPlain()
    ensures IsPlainBullet(QUOTING_BULLET)
  {
    HeadingsHaveNoBreaks(0);
    assert '\r' !in MARK && '\r' !in "file operations";
    assert '\r' !in "- see " && '\n' !in "- see ";
  }

  /** The quoted heading is the first one in the text. */
  lemma QuotedHeadingComesFirst(s: string, i: nat)
    requires BEFORE_HEADING <= s && i < |BEFORE_HEADING|
    ensures !OccursAt(s, FILE_HEADING, i)
  {
    var sub := StrippedHeading(0);
    MarkedHeadings(0);
    hide StrippedHeading;
    var c := if i == 0 then 2 else if i == 1 then 1 else 0;
    assert BEFORE_HEADING[i + c] != '#';
    if i + |sub| <= |s| {
      assert s[i..i + |sub|][c] == s[i + c] == BEFORE_HEADING[i + c];
    }
  }

  lemma QuotingText(rest: string)
    ensures Strip(BEFORE_HEADING + FILE_HEADING + rest) == "## Goal\n- see"
  {
    var s := BEFORE_HEADING + FILE_HEADING + rest;
    forall i: nat | i < |BEFORE_HEADING| ensures !OccursAt(s, StrippedHeading(0), i) {
      QuotedHeadingComesFirst(s, i);
    }
    assert OccursAt(s, StrippedHeading(0), |BEFORE_HEADING|);
    HeadingsHaveNoBreaks(0);
    CutExactly(s, StrippedHeading(0), |BEFORE_HEADING|);
    assert s[..|BEFORE_HEADING|] == BEFORE_HEADING;
    ShortTextIsKept(BEFORE_HEADING, 1);
    TrimmedPrefix();
  }

  /** No heading fits into a text of 14 characters. */
  lemma {:induction false} ShortTextIsKept(s: string, i: nat)
    requires i <= 4 && |s| <= 14
    ensures CutFrom(s, i) == s
    decreases 4 - i
  {
    if i < 4 {
      HeadingsHaveNoBreaks(i);
      ShortTextIsKept(s, i + 1);
    }
  }

  lemma TrimmedPrefix()
    ensures TrimSpace(BEFORE_HEADING) == "## Goal\n- see"
  {
    var kept := "## Goal\n- see";
    assert BEFORE_HEADING == kept + " ";
    TrimRightDropsBlank(kept, " ");
  }

  lemma TwoLinesDoNotConform()
    ensures !Conforms(Lines("## Goal\n- see"))
  {
    var lines := ["## Goal", "- see"];
    assert Join(lines, "\n") == "## Goal\n- see" by {
      assert lines[1..] == ["- see"];
    }
    assert IsPlain("## Goal") && IsPlain("- see");
    LinesOfJoin(lines);
    HeadingsAreLines(lines);
  }

  lemma JoinStarts(lines: seq<string>)
    requires |lines| > 2
    ensures Join(lines, "\n") == lines[0] + "\n" + lines[1] + "\n" + Join(lines[2..], "\n")
  {
    hide Join;
    var rest := Join(lines[2..], "\n");
    JoinFirst(lines);
    JoinFirst(lines[1..]);
    assert lines[1..][1..] == lines[2..];
    assert lines[0] + "\n" + (lines[1] + "\n" + rest) == lines[0] + "\n" + lines[1] + "\n" + rest;
  }

  lemma JoinFirst(lines: seq<string>)
    requires |lines| > 1
    ensures Join(lines, "\n") == lines[0] + "\n" + Join(lines[1..], "\n")
  {
  }

  lemma SkeletonStarts(first: string)
    ensures Join(Skeleton(first), "\n") == "## Goal\n" + first + "\n" + Join(Skeleton(first)[2..], "\n")
  {
    FirstLines(first);
    hide Join, SkeletonLine;
    JoinStarts(Skeleton(first));
    assert "## Goal" + "\n" == "## Goal\n";
  }

  lemma FirstLines(first: string)
    ensures SkeletonLine(first, 0) == "## Goal" && SkeletonLine(first, 1) == first
  {
  }

  /**
   * A conforming summary that quotes an appendix heading in a bullet passes every check of the reducer, yet whatever is
   * stored for it is refused: stripping cuts it at the quotation.
   */
  lemma QuotedHeadingIsRefused() returns (text: string, maxTokens: int)
    ensures Acceptable(text, maxTokens)
    ensures forall stored: string | Strip(stored) == Strip(text) :: !Accepted(stored)
  {
    hide Conforms, Lines, Join, Skeleton, TrimSpace, EstimateTokens, Strip, IsPlainBullet;
    QuotingBulletIsPlain();
    SkeletonConforms(QUOTING_BULLET);
    text := Join(Skeleton(QUOTING_BULLET), "\n");
    maxTokens := EstimateTokens(text);
    SkeletonStarts(QUOTING_BULLET);
    var rest := "\n" + Join(Skeleton(QUOTING_BULLET)[2..], "\n");
    assert "## Goal\n" + QUOTING_BULLET == BEFORE_HEADING + FILE_HEADING;
    assert text == BEFORE_HEADING + FILE_HEADING + rest;
    QuotingText(rest);
    TwoLinesDoNotConform();
  }

  // ----- a text that quotes a heading and is accepted all the same -----

  /** The lines of the skeleton, and one more bullet at the end. */
  function Extended(bullet: string): seq<string> {
    Skeleton(NO_NEWS) + [bullet]
  }

  /** One more bullet at the end of a conforming text. */
  lemma OneMoreBullet(lines: seq<string>, bullet: string)
    requires Conforms(lines) && IsBullet(bullet) && !IsReserved(bullet)
    ensures Conforms(lines + [bullet])
  {
    hide IsBullet, IsReserved, IsHeading, IsRequiredHeading, HeadingIndexes, TrimSpace;
    var longer := lines + [bullet];
    var h := HeadingIndexes(lines);
    BulletIsNoHeading(bullet);
    HeadingsAfter(lines, bullet);
    assert h + [] == h;
    forall k | 0 <= k < SECTIONS ensures HasBullet(longer, h[k], SectionEnd(longer, h, k)) {
      assert HasBullet(lines, h[k], SectionEnd(lines, h, k));
      BulletAfter(lines, bullet, h[k], SectionEnd(longer, h, k));
    }
  }

  lemma BulletIsNoHeading(line: string)
    requires IsBullet(line)
    ensures !IsHeading(line)
  {
  }

  lemma ExtendedConforms(bullet: string)
    requires IsPlainBullet(bullet)
    ensures var text := Join(Extended(bullet), "\n");
      && Lines(text) == Extended(bullet) && Conforms(Lines(text))
      && TrimSpace(text) == text && text != ""
  {
    hide Conforms, Lines, Join, TrimSpace, IsPlainBullet, IsPlain, IsBullet, IsReserved;
    NoNewsIsPlain();
    SkeletonIsOrdered(NO_NEWS);
    BulletFacts(bullet);
    OneMoreBullet(Skeleton(NO_NEWS), bullet);
    assert IsPlain(bullet) by {
      PlainBulletIsPlain(bullet);
    }
    LinesOfJoin(Extended(bullet));
    JoinShape(Extended(bullet));
  }

  lemma PlainBulletIsPlain(line: string)
    requires IsPlainBullet(line)
    ensures IsPlain(line)
  {
  }

  lemma {:induction false} JoinLast(lines: seq<string>, last: string, tail: string)
    ensures Join(lines + [last + tail], "\n") == Join(lines + [last], "\n") + tail
  {
    if lines != [] {
      assert (lines + [last + tail])[1..] == lines[1..] + [last + tail];
      assert (lines + [last])[1..] == lines[1..] + [last];
      JoinLast(lines[1..], last, tail);
      var a, b := lines[0] + "\n", Join(lines[1..] + [last], "\n");
      assert a + (b + tail) == (a + b) + tail;
    }
  }

  /** Up to the quoted heading the text holds none. */
  lemma ExtendedIsClean(bullet: string)
    requires HoldsNoHeading(bullet)
    ensures Clean(Join(Extended(bullet), "\n"))
  {
    var lines := Extended(bullet);
    hide Join, StrippedHeading, SkeletonLine, HoldsNoHeading;
    forall i: nat | i < 4 ensures !Occurs(Join(lines, "\n"), StrippedHeading(i)) {
      HeadingsHaveNoBreaks(i);
      forall j: nat ensures !OccursAt(Join(lines, "\n"), StrippedHeading(i), j) {
        if OccursAt(Join(lines, "\n"), StrippedHeading(i), j) {
          var k := OccursInSomeLine(lines, StrippedHeading(i), j);
          if k < 2 * SECTIONS {
            SkeletonHoldsNoHeading(k);
          }
          NoHeadingInLine(lines[k], i);
        }
      }
    }
  }

  /** A heading cannot begin in the last line before it when that line holds no hash sign. */
  lemma NoEarlierHeading(p: string, i: nat)
    requires Clean(p) && |p| >= 7 && p[|p| - 7..] == "\n- see " && i < |p|
    ensures !OccursAt(p + FILE_HEADING, FILE_HEADING, i)
  {
    var sub, s := StrippedHeading(0), p + FILE_HEADING;
    MarkedHeadings(0);
    HeadingsHaveNoBreaks(0);
    hide StrippedHeading;
    if i + |sub| <= |p| {
      assert !OccursAt(p, sub, i);
      assert s[i..i + |sub|] == p[i..i + |sub|];
    } else if i + |sub| <= |s| {
      var at := |p| - 7;
      if i <= at {
        assert s[i..i + |sub|][at - i] == p[at] == p[at..][0];
      } else {
        assert s[i..i + |sub|][0] == p[i] == p[at..][i - at];
      }
    }
  }

  lemma StripAtQuotation(p: string, kept: string)
    requires Clean(p) && |p| >= 7 && p[|p| - 7..] == "\n- see "
    requires p == kept + " " && kept != "" && TrimSpace(kept) == kept
    ensures Strip(p + FILE_HEADING) == kept
  {
    var s := p + FILE_HEADING;
    HeadingsHaveNoBreaks(0);
    assert OccursAt(s, StrippedHeading(0), |p|);
    forall i: nat | i < |p| ensures !OccursAt(s, StrippedHeading(0), i) {
      NoEarlierHeading(p, i);
    }
    CutExactly(s, StrippedHeading(0), |p|);
    CutLeavesClean(p, p, 1);
    assert CutFrom(s, 0) == CutFrom(p, 1) == p;
    TrimSpaceShape(kept);
    TrimRightDropsBlank(kept, " ");
    assert TrimLeft(kept + " ") == kept + " ";
    assert TrimLeft(kept) == kept;
  }

  lemma JoinEnds(lines: seq<string>, last: string)
    requires lines != []
    ensures var text := Join(lines + [last], "\n"); |text| > |last| && text[|text| - |last| - 1..] == "\n" + last
  {
    JoinLast(lines, "", last);
    assert "" + last == last;
    JoinBreak(lines);
  }

  lemma {:induction false} JoinBreak(lines: seq<string>)
    requires lines != []
    ensures var text := Join(lines + [""], "\n"); text != "" && text[|text| - 1] == '\n'
  {
    var more := lines + [""];
    assert more[1..] == lines[1..] + [""];
    if |lines| > 1 {
      JoinBreak(lines[1..]);
    }
  }

  /**
   * A heading that is quoted under the last heading, behind another bullet, does no harm: the summary is accepted
   * however it is stored, without the quotation.
   */
  lemma LateQuotationIsAccepted() returns (text: string, maxTokens: int)
    ensures Acceptable(text, maxTokens) && !Clean(text)
    ensures forall stored: string | Strip(stored) == Strip(text) :: Accepted(stored)
  {
    hide Conforms, Lines, Join, Skeleton, TrimSpace, EstimateTokens, Strip, IsPlainBullet, Extended, Clean,
      HoldsNoHeading;
    QuotingBulletIsPlain();
    ExtendedConforms(QUOTING_BULLET);
    text := Join(Extended(QUOTING_BULLET), "\n");
    maxTokens := EstimateTokens(text);
    var p, kept := Join(Extended("- see "), "\n"), Join(Extended("- see"), "\n");
    JoinsOfExtended();
    ShortBullets();
    ExtendedConforms("- see");
    ExtendedIsClean("- see ");
    StripAtQuotation(p, kept);
    QuotesHeading(p);
  }

  lemma QuotesHeading(p: string)
    ensures !Clean(p + FILE_HEADING)
  {
    assert OccursAt(p + FILE_HEADING, StrippedHeading(0), |p|);
  }

  lemma ShortBullets()
    ensures IsPlainBullet("- see") && HoldsNoHeading("- see ")
  {
  }

  lemma JoinsOfExtended()
    ensures var p := Join(Extended("- see "), "\n");
      && Join(Extended(QUOTING_BULLET), "\n") == p + FILE_HEADING
      && p == Join(Extended("- see"), "\n") + " "
      && |p| >= 7 && p[|p| - 7..] == "\n- see "
  {
    hide Join, Skeleton;
    JoinLast(Skeleton(NO_NEWS), "- see ", FILE_HEADING);
    JoinLast(Skeleton(NO_NEWS), "- see", " ");
    JoinEnds(Skeleton(NO_NEWS), "- see ");
    assert "- see" + " " == "- see ";
    assert "\n" + "- see " == "\n- see ";
  }
}
