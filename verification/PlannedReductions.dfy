/** When a planned compaction can be reduced (internal/compaction/plan.go, internal/assistant/context_compaction.go). */
module PlannedReductions {
  import opened Text
  import opened Entries
  import opened Groups
  import opened Planner
  import opened BranchPlan
  import opened Compactions
  import opened SplittingRuns
  import opened Reducer

  /** What a plan summarises is facing content, so every group of it costs something. */
  lemma PlannedGroupsCost(branch: seq<Entry>, target: int, chosen: Option<string>, count: TokenCounter, plan: Plan)
    requires IsPlan(branch, target, chosen, count, plan)
    ensures plan.summaryGroups == GroupsOf(plan.messages, plan.summarizedIds) && plan.messages != []
    ensures Measured(plan.summaryGroups) && MessagesOf(plan.summaryGroups) == plan.messages
    ensures forall i | 0 <= i < |plan.summaryGroups| :: plan.summaryGroups[i].tokens > 0
  {
    hide IsPlan, History, TokensOfBranch, KeptIds, NextHistory, Boundary, Turns, EstimateMessage, GroupsOf;
    var start := Boundary(branch);
    var cut := PlanIsCut(branch, target, chosen, count, plan);
    PlanAdvances(branch, target, chosen, count, plan);
    var end := if plan.messages == RangeMessages(branch, start, cut.firstKept) then cut.firstKept else cut.turnStart;
    forall i | 0 <= i < |plan.messages| ensures EstimateMessage(plan.messages[i]) > 0 {
      HistoryCosts(History(branch[start..end])[i]);
    }
    var groups := plan.summaryGroups;
    GroupsPreserveMessages(plan.messages, plan.summarizedIds);
    TurnsAreMeasured(groups);
    forall i | 0 <= i < |groups| ensures groups[i].tokens > 0 {
      CostlyGroup(groups, i);
    }
  }

  lemma HistoryCosts(e: Entry)
    requires IsHistory(e)
    ensures EstimateMessage(HistoryMessage(e)) > 0
  {
    hide EstimateTokens;
    var m := CandidateMessage(e);
    if TrimSpace(m.content) == "" {
      var i :| 0 <= i < |m.parts| && m.parts[i].ImagePart? && m.parts[i].dataBytes > 0;
      ImageCosts(m.parts, i);
    } else {
      FacingStaysVisible(m);
      VisibleCosts(FacingMessage(m).content);
    }
  }

  lemma VisibleCosts(text: string)
    requires TrimSpace(text) != ""
    ensures EstimateTokens(text) > 0
  {
  }

  lemma FacingStaysVisible(m: Message)
    requires TrimSpace(m.content) != ""
    ensures TrimSpace(FacingMessage(m).content) != ""
  {
    hide TrimSpace;
    TrimSpaceBlank(m.content);
    TrimSpaceBlank(FacingMessage(m).content);
    var i :| 0 <= i < |m.content| && !IsSpace(m.content[i]);
    var shift :=
      if m.role == RoleCompactionSummary then |COMPACTION_PREFIX|
      else if m.role == RoleBranchSummary then |BRANCH_PREFIX| else 0;
    assert FacingMessage(m).content[shift + i] == m.content[i];
  }

  lemma {:induction false} ImageCosts(parts: seq<Part>, i: nat)
    requires i < |parts| && parts[i].ImagePart?
    ensures PartTokens(parts) > 0
  {
    if i > 0 {
      ImageCosts(parts[1..], i - 1);
    }
  }

  lemma CostlyGroup(groups: seq<SemanticGroup>, i: nat)
    requires Turns(groups) && i < |groups|
    requires forall k | 0 <= k < |MessagesOf(groups)| :: EstimateMessage(MessagesOf(groups)[k]) > 0
    ensures groups[i].tokens > 0
  {
    hide EstimateMessage, MessagesOf;
    assert IsTurn(groups[i]);
    var messages := groups[i].messages;
    GroupMessagesAll(groups, |groups|);
    GroupMessagesSplit(groups, 0, i, |groups|);
    GroupMessagesSplit(groups, i, i + 1, |groups|);
    assert groups[..|groups|] == groups;
    assert GroupMessages(groups, i, i + 1) == messages;
    var last := |GroupMessages(groups, 0, i)| + |messages| - 1;
    assert MessagesOf(groups)[last] == messages[|messages| - 1];
  }

  /**
   * A planned compaction whose summary was truncated is reduced exactly when the first history entry from the
   * boundary on starts a turn and at least two turns are summarised; otherwise the truncation is final and the
   * provider is not asked again.
   */
  lemma PlannedReduction(
    w: World, sent: nat, branch: seq<Entry>, target: int, chosen: Option<string>, count: TokenCounter, plan: Plan,
    base: Completion, t: Trace, r: SummaryResult, after: nat)
    requires IsPlan(branch, target, chosen, count, plan) && base.messages == plan.messages
    requires Preflight(NewSummaryRequest(w, base)).None?
    requires Reduces(w, sent, base, plan.summaryGroups, 1, true, t, r, after)
    ensures NextHistory(branch, Boundary(branch)) < |branch|
    ensures !t.Unsplit? <==>
      && StartsTurn(HistoryMessage(branch[NextHistory(branch, Boundary(branch))]).role)
      && |plan.summaryGroups| >= 2
    ensures t.Unsplit? ==> r == Failure(NoProgress) && after == sent
  {
    hide Reduces, Preflight, IsPlan, NextHistory, Boundary, IsHistory;
    PlanStartsAtBoundary(branch, target, chosen, count, plan);
    PlannedGroupsCost(branch, target, chosen, count, plan);
    OnlyWholeTurnsAreReduced(w, sent, base, plan.messages, plan.summarizedIds, t, r, after);
    RefusedSendsNothing(w, sent, base, plan.summaryGroups, t, r, after);
  }

  lemma RefusedSendsNothing(
    w: World, sent: nat, base: Completion, groups: seq<SemanticGroup>, t: Trace, r: SummaryResult, after: nat)
    requires Reduces(w, sent, base, groups, 1, true, t, r, after)
    ensures t.Unsplit? ==> r == Failure(NoProgress) && after == sent
  {
  }

  // ----- after a compaction -----

  /**
   * After a compaction the entry that decides is the one it kept first. It need not start a turn: the compaction may
   * have cut inside one.
   */
  lemma PreviousCutDecides(events: seq<Event>, count: TokenCounter)
    requires Orderly(events, count)
    ensures var branch := Run(events, count).branch;
      var last := LastCompaction(branch);
      last.Some? ==>
        && Boundary(branch) < last.value
        && NextHistory(branch, Boundary(branch)) == Boundary(branch)
        && branch[Boundary(branch)].id == branch[last.value].firstKeptId
  {
    hide Run, WellCut;
    var branch := Run(events, count).branch;
    RunsAreGood(events, count);
    var last := LastCompaction(branch);
    if last.Some? {
      var k := BoundaryOf(branch, last.value);
      IndexByIdDistinct(branch, k);
    }
  }

  const ROLES_TAKEN_AS_TURNS := {RoleBashExecution, RoleBranchSummary, RoleCompactionSummary}

  /**
   * Planner and packer tell turns differently. The packer also starts one at a command, and at a summary that is
   * replayed as a user message.
   */
  lemma TurnsTheyTell(e: Entry)
    requires IsHistory(e)
    ensures StartsTurn(HistoryMessage(e).role) <==>
      IsTurnStart(e) || CandidateMessage(e).role in ROLES_TAKEN_AS_TURNS
  {
    hide IsFacingMessage;
  }

  /**
   * After a compaction a truncated summary is reduced exactly when the entry that the compaction kept first starts a
   * turn, or is a command or a summary, and at least two turns are summarised.
   */
  lemma ReducedAfterCompaction(
    w: World, sent: nat, events: seq<Event>, target: int, chosen: Option<string>, count: TokenCounter, plan: Plan,
    base: Completion, t: Trace, r: SummaryResult, after: nat)
    requires Orderly(events, count) && LastCompaction(Run(events, count).branch).Some?
    requires IsPlan(Run(events, count).branch, target, chosen, count, plan) && base.messages == plan.messages
    requires Preflight(NewSummaryRequest(w, base)).None?
    requires Reduces(w, sent, base, plan.summaryGroups, 1, true, t, r, after)
    ensures var branch := Run(events, count).branch;
      && Boundary(branch) < |branch|
      && var kept := branch[Boundary(branch)];
        && kept.id == branch[LastCompaction(branch).value].firstKeptId
        && (!t.Unsplit? <==>
          && (IsTurnStart(kept) || CandidateMessage(kept).role in ROLES_TAKEN_AS_TURNS)
          && |plan.summaryGroups| >= 2)
  {
    hide Run, Reduces, Preflight, IsPlan, NextHistory, Boundary, Orderly, IsFacingMessage;
    var branch := Run(events, count).branch;
    PreviousCutDecides(events, count);
    PlannedReduction(w, sent, branch, target, chosen, count, plan, base, t, r, after);
    TurnsTheyTell(branch[Boundary(branch)]);
  }

  // ----- a run whose second compaction cannot be reduced -----

  lemma TwoGroups(answer: Message, question: Message, ids: seq<string>)
    requires StartsTurn(question.role)
    ensures |GroupsOf([answer, question], ids)| == 2
  {
    var groups := GroupsOf([answer], ids);
    assert [answer][..0] == [] && GroupsOf([], ids) == [];
    assert groups == AddMessage([], answer, IdList(ids, 0)) && |groups| == 1;
    assert [answer, question][..1] == [answer];
    assert GroupsOf([answer, question], ids) == AddMessage(groups, question, IdList(ids, 1));
  }

  /** What the second plan of that run summarises: the answer that the first compaction kept, and one more question. */
  lemma SecondPlan(summary: string, count: TokenCounter)
    requires Accepted(summary) && count("y") > 0 && count("w") > 0
    ensures var branch := Run(SplittingRun(summary), count).branch;
      && PlanOf(branch, 1, count).Planned?
      && var plan := PlanOf(branch, 1, count).plan;
        |plan.messages| == 2 && plan.messages[0].role == RoleAssistant && |plan.summaryGroups| == 2
  {
    hide PlanOf, Accepted, EntryOf, Run, GroupsOf;
    var branch := Run(SplittingRun(summary), count).branch;
    var first := BranchOfSplittingRun(summary, count);
    SaidIsHistory("2", RoleAssistant, "y");
    SaidIsHistory("4", RoleUser, "z");
    SaidIsHistory("5", RoleUser, "w");
    SplittingRunIsOrderly(summary, count);
    RunsAreGood(SplittingRun(summary), count);
    PlanFromInsideTurn(branch, count);
    var plan := PlanOf(branch, 1, count).plan;
    PlannedGroupsCost(branch, 1, None, count, plan);
    TwoGroups(plan.messages[0], plan.messages[1], plan.summarizedIds);
  }

  /**
   * For every accepted summary, the second plan of that run begins with the answer that the first compaction kept. When
   * its summary is truncated the compaction fails for lack of progress, although it holds two groups.
   */
  lemma SplitTurnIsNeverReduced(
    summary: string, count: TokenCounter, w: World, sent: nat, base: Completion, t: Trace, r: SummaryResult, after: nat)
    requires Accepted(summary) && count("y") > 0 && count("w") > 0
    ensures var branch := Run(SplittingRun(summary), count).branch;
      && PlanOf(branch, 1, count).Planned?
      && var plan := PlanOf(branch, 1, count).plan;
        && |plan.messages| == 2 && plan.messages[0].role == RoleAssistant && |plan.summaryGroups| == 2
        && (base.messages == plan.messages && Preflight(NewSummaryRequest(w, base)).None?
            && Reduces(w, sent, base, plan.summaryGroups, 1, true, t, r, after)
            ==> t.Unsplit? && r == Failure(NoProgress) && after == sent)
  {
    hide PlanOf, Accepted, Run, Reduces, Preflight, SplittingRun, NextHistory, Boundary;
    SecondPlan(summary, count);
    var branch := Run(SplittingRun(summary), count).branch;
    var plan := PlanOf(branch, 1, count).plan;
    if base.messages == plan.messages && Preflight(NewSummaryRequest(w, base)).None?
      && Reduces(w, sent, base, plan.summaryGroups, 1, true, t, r, after) {
      PlanStartsAtBoundary(branch, 1, None, count, plan);
      PlannedReduction(w, sent, branch, 1, None, count, plan, base, t, r, after);
    }
  }
}
