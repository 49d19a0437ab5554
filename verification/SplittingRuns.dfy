/**
 * One short run of a branch (internal/compaction/plan.go): a compaction that splits a turn, and what comes after it.
 */
module SplittingRuns {
  import opened Text
  import opened Entries
  import opened Groups
  import opened Planner
  import opened BranchPlan
  import opened Compactions

  function Said(id: string, role: Role, content: string): Event {
    AppendMessage(id, Message(0, role, content, "", "", []), None, None)
  }

  /** A compaction that splits a turn, then one more turn and a half. */
  function SplittingRun(summary: string): seq<Event> {
    [Said("1", RoleUser, "x"), Said("2", RoleAssistant, "y"), Compact("3", 1, None, summary, 0),
     Said("4", RoleUser, "z"), Said("5", RoleUser, "w")]
  }

  lemma SaidIsHistory(id: string, role: Role, content: string)
    requires role in {RoleUser, RoleAssistant} && content != "" && !IsSpace(content[0])
    ensures var e := EntryOf(Said(id, role, content));
      && InContext(e) && IsHistory(e) && e.id == id && CandidateMessage(e) == HistoryMessage(e)
      && HistoryMessage(e).role == role && HistoryMessage(e).content == content
  {
    hide TrimSpace;
    TrimSpaceBlank(content);
  }

  /** Of a question and its answer the answer is kept, which splits the turn. */
  lemma PlanInsideTurn(branch: seq<Entry>, count: TokenCounter)
    requires |branch| == 2 && IsHistory(branch[0]) && IsHistory(branch[1])
    requires Cost(branch[1], count) > 0
    ensures PlanOf(branch, 1, count).Planned? && PlanOf(branch, 1, count).plan.firstKeptIndex == 1
  {
    hide IsFacingMessage, PlanAt;
    assert branch[..2] == branch && branch[..1] == [branch[0]];
    assert TailTokens(branch, 1, count) == Cost(branch[1], count) + TailTokens(branch, 2, count);
    assert ReachingIndex(branch, 0, 2, 1, count) == Some(1);
    assert NextHistory(branch, 0) == 0;
    assert LastInContext(branch) == Some(1);
    PlanIndex(branch, 0, CutPointOf(branch, 0, 1, count), count);
  }

  /** The next plan starts with that answer. */
  lemma PlanFromInsideTurn(branch: seq<Entry>, count: TokenCounter)
    requires |branch| == 5 && DistinctIds(branch)
    requires IsHistory(branch[1]) && IsHistory(branch[3]) && IsHistory(branch[4]) && IsTurnStart(branch[4])
    requires branch[2].entryType == CompactionEntry && branch[2].firstKeptId == branch[1].id
    requires Cost(branch[4], count) > 0
    ensures PlanOf(branch, 1, count).Planned?
    ensures PlanOf(branch, 1, count).plan.messages == [HistoryMessage(branch[1]), HistoryMessage(branch[3])]
  {
    hide IsFacingMessage, GroupsOf, TokensOfBranch, KeptIds, SplitTurnSummary;
    assert LastCompaction(branch) == Some(2);
    IndexByIdDistinct(branch, 1);
    assert TailTokens(branch, 4, count) == Cost(branch[4], count) + TailTokens(branch, 5, count);
    assert ReachingIndex(branch, 1, 5, 1, count) == Some(4);
    assert LastInContext(branch) == Some(4);
    assert CutPointOf(branch, 1, 1, count) == CutPoint(4, -1, false);
    assert branch[1..1] == [] && History(branch[1..1]) == [];
    HistoryAppend(branch, 1, 1);
    HistoryAppend(branch, 1, 2);
    HistoryAppend(branch, 1, 3);
    assert History(branch[1..4]) == [branch[1], branch[3]];
  }

  lemma AppendRuns(events: seq<Event>, n: nat, s: State, count: TokenCounter)
    requires n < |events| && Run(events[..n], count) == s && !events[n].Compact? && events[n].id !in Ids(s.branch)
    ensures Run(events[..n + 1], count) == s.(branch := s.branch + [EntryOf(events[n])])
  {
    hide EntryOf, Accepted, PlanOf;
    assert events[..n + 1][..n] == events[..n];
  }

  lemma CompactRuns(events: seq<Event>, n: nat, s: State, count: TokenCounter, plan: Plan)
    requires n < |events| && Run(events[..n], count) == s && events[n].Compact? && events[n].id !in Ids(s.branch)
    requires Accepted(events[n].summary) && IsPlan(s.branch, events[n].target, events[n].chosen, count, plan)
    ensures Run(events[..n + 1], count) ==
      State(s.branch + [CompactionOf(events[n], plan)], s.summarized + [plan.summarizedIds])
  {
    hide CompactionOf, Accepted, PlanFor;
    assert events[..n + 1][..n] == events[..n];
  }

  lemma FirstTurnRuns(events: seq<Event>, count: TokenCounter)
    requires |events| >= 2
    requires events[0] == Said("1", RoleUser, "x") && events[1] == Said("2", RoleAssistant, "y")
    ensures Run(events[..2], count) == State([EntryOf(events[0]), EntryOf(events[1])], [])
  {
    hide EntryOf, Run;
    SaidIsHistory("1", RoleUser, "x");
    assert "1" != "2" by { assert "1"[0] != "2"[0]; }
    NothingRuns(events, count);
    AppendRuns(events, 0, State([], []), count);
    AppendRuns(events, 1, State([EntryOf(events[0])], []), count);
  }

  /** The first compaction keeps the answer. */
  lemma FirstCompactionRuns(events: seq<Event>, s: State, count: TokenCounter) returns (first: Plan)
    requires |events| >= 3 && Run(events[..2], count) == s
    requires s == State([EntryOf(Said("1", RoleUser, "x")), EntryOf(Said("2", RoleAssistant, "y"))], [])
    requires events[2].Compact? && events[2].id == "3" && events[2].target == 1 && events[2].chosen.None?
    requires Accepted(events[2].summary)
    requires count("y") > 0
    ensures first.firstKeptId == "2"
    ensures Run(events[..3], count) == State(s.branch + [CompactionOf(events[2], first)], [first.summarizedIds])
  {
    hide EntryOf, Run, PlanOf, Accepted, CompactionOf, Boundary, History;
    SaidIsHistory("1", RoleUser, "x");
    SaidIsHistory("2", RoleAssistant, "y");
    PlanInsideTurn(s.branch, count);
    first := PlanOf(s.branch, 1, count).plan;
    PlanAdvances(s.branch, 1, None, count, first);
    NewId(s.branch, "3", '3');
    CompactRuns(events, 2, s, count, first);
  }

  lemma NewId(branch: seq<Entry>, id: string, c: char)
    requires id == [c] && forall i | 0 <= i < |branch| :: branch[i].id != "" && branch[i].id[0] != c
    ensures id !in Ids(branch)
  {
  }

  lemma SecondTurnRuns(events: seq<Event>, s: State, count: TokenCounter)
    requires |events| == 5 && |s.branch| == 3 && Run(events[..3], count) == s
    requires s.branch[0].id == "1" && s.branch[1].id == "2" && s.branch[2].id == "3"
    requires events[3] == Said("4", RoleUser, "z") && events[4] == Said("5", RoleUser, "w")
    ensures Run(events, count) == s.(branch := s.branch + [EntryOf(events[3]), EntryOf(events[4])])
  {
    hide EntryOf, Run;
    SaidIsHistory("4", RoleUser, "z");
    NewId(s.branch, "4", '4');
    AppendRuns(events, 3, s, count);
    var longer := s.branch + [EntryOf(events[3])];
    NewId(longer, "5", '5');
    AppendRuns(events, 4, s.(branch := longer), count);
    assert events[..5] == events;
  }

  /** What the run looks like when the second compaction is planned. */
  lemma BranchOfSplittingRun(summary: string, count: TokenCounter) returns (first: Plan)
    requires Accepted(summary) && count("y") > 0
    ensures first.firstKeptId == "2"
    ensures Run(SplittingRun(summary), count).branch ==
      [EntryOf(Said("1", RoleUser, "x")), EntryOf(Said("2", RoleAssistant, "y")),
       CompactionOf(Compact("3", 1, None, summary, 0), first),
       EntryOf(Said("4", RoleUser, "z")), EntryOf(Said("5", RoleUser, "w"))]
  {
    hide EntryOf, Run, PlanOf, Accepted, CompactionOf;
    var events := SplittingRun(summary);
    FirstTurnRuns(events, count);
    var s := Run(events[..2], count);
    first := FirstCompactionRuns(events, s, count);
    CompactionHasId(events[2], first);
    SaidIsHistory("1", RoleUser, "x");
    SaidIsHistory("2", RoleAssistant, "y");
    SecondTurnRuns(events, Run(events[..3], count), count);
  }

  lemma CompactionHasId(ev: Event, plan: Plan)
    requires ev.Compact?
    ensures CompactionOf(ev, plan).id == ev.id
  {
  }

  lemma NothingRuns(events: seq<Event>, count: TokenCounter)
    ensures Run(events[..0], count) == State([], [])
  {
  }

  /** No extension takes part in the run. */
  lemma SplittingRunIsOrderly(summary: string, count: TokenCounter)
    ensures Orderly(SplittingRun(summary), count)
  {
    ChoosesNothing(SplittingRun(summary), count);
  }

  lemma {:induction false} ChoosesNothing(events: seq<Event>, count: TokenCounter)
    requires forall i | 0 <= i < |events| :: events[i].Compact? ==> events[i].chosen.None?
    ensures Orderly(events, count)
  {
    hide Run;
    if events != [] {
      ChoosesNothing(events[..|events| - 1], count);
    }
  }

  // ----- a split turn whose rest starts a turn for the packer -----

  /** A question, and a command whose output the model sees. */
  function CommandRun(): seq<Event> {
    [Said("1", RoleUser, "x"), AppendMessage("2", Message(0, RoleBashExecution, "y", "", "", []), Some(true), None)]
  }

  lemma BranchOfCommandRun(count: TokenCounter)
    ensures Run(CommandRun(), count) == State([EntryOf(CommandRun()[0]), EntryOf(CommandRun()[1])], [])
  {
    hide EntryOf, Run;
    var events := CommandRun();
    var a := EntryOf(events[0]);
    SaidIsHistory("1", RoleUser, "x");
    NothingRuns(events, count);
    AppendRuns(events, 0, State([], []), count);
    NewId([a], "2", '2');
    AppendRuns(events, 1, State([a], []), count);
    assert events[..2] == events;
  }

  lemma CommandIsHistory()
    ensures var e := EntryOf(CommandRun()[1]);
      && IsHistory(e) && !IsTurnStart(e) && e.id == "2"
      && CandidateMessage(e).role == RoleBashExecution && CandidateMessage(e).content == "y"
  {
    hide TrimSpace;
    TrimSpaceBlank("y");
    assert !IsSpace("y"[0]);
  }

  /**
   * A plan that splits a turn may keep an entry first that starts a turn all the same: the planner takes the command to
   * belong to the question before it, the packer does not.
   */
  lemma SplitTurnMayStartTurn(count: TokenCounter)
    requires count("y") > 0
    ensures var branch := Run(CommandRun(), count).branch;
      && PlanOf(branch, 1, count).Planned? && PlanOf(branch, 1, count).plan.firstKeptIndex == 1 < |branch|
      && CutPointOf(branch, 0, 1, count) == CutPoint(1, 0, true)
      && IsHistory(branch[1]) && StartsTurn(HistoryMessage(branch[1]).role)
  {
    hide IsFacingMessage, EntryOf, Run, PlanOf, CutIndex;
    var branch := Run(CommandRun(), count).branch;
    BranchOfCommandRun(count);
    SaidIsHistory("1", RoleUser, "x");
    CommandIsHistory();
    PlanInsideTurn(branch, count);
    OwnPlanIsCut(branch, 1, count, PlanOf(branch, 1, count).plan);
    assert Boundary(branch) == 0;
  }
}
