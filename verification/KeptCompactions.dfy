/**
 * A run in which an extension chooses a compaction to be kept first (internal/assistant/context_compaction.go and
 * internal/compaction/plan.go together).
 */
module KeptCompactions {
  import opened Text
  import opened Entries
  import opened Planner
  import opened BranchPlan
  import opened Compactions
  import opened SplittingRuns

  /** A compaction that keeps the last two of three messages, and one more message. */
  function KeepingRun(summary: string, count: TokenCounter): seq<Event> {
    [Said("1", RoleUser, "y"), Said("2", RoleAssistant, "y"), Said("3", RoleAssistant, "y"),
     Compact("4", 2 * count("y"), None, summary, 0), Said("5", RoleUser, "y")]
  }

  /** The last compaction, which keeps one message before the other first. */
  function Choice(summary: string, count: TokenCounter): Event {
    Compact("6", 2 * count("y"), Some("4"), summary, 0)
  }

  lemma FirstPlan(branch: seq<Entry>, c: nat, count: TokenCounter)
    requires |branch| == 3 && forall i | 0 <= i < 3 :: IsHistory(branch[i]) && Cost(branch[i], count) == c
    requires c > 0
    ensures PlanOf(branch, 2 * c, count).Planned? && PlanOf(branch, 2 * c, count).plan.firstKeptIndex == 1
  {
    hide IsFacingMessage, PlanAt, Cost;
    assert TailTokens(branch, 2, count) == Cost(branch[2], count) + TailTokens(branch, 3, count);
    assert TailTokens(branch, 1, count) == Cost(branch[1], count) + TailTokens(branch, 2, count);
    assert ReachingIndex(branch, 0, 2, 2 * c, count) == Some(1);
    assert ReachingIndex(branch, 0, 3, 2 * c, count) == Some(1);
    assert LastInContext(branch) == Some(2);
    PlanIndex(branch, 0, CutPointOf(branch, 0, 2 * c, count), count);
  }

  lemma SecondPlanKeepsCompaction(branch: seq<Entry>, c: nat, count: TokenCounter)
    requires |branch| == 5 && DistinctIds(branch) && InContext(branch[3]) && c > 0
    requires forall i | i in {1, 2, 4} :: IsHistory(branch[i]) && Cost(branch[i], count) == c
    requires branch[3].entryType == CompactionEntry && branch[3].firstKeptId == branch[1].id
    ensures PlanOf(branch, 2 * c, count).Planned? && branch[3].id in PlanOf(branch, 2 * c, count).plan.keptIds
  {
    hide IsFacingMessage, PlanAt;
    assert LastCompaction(branch) == Some(3);
    IndexByIdDistinct(branch, 1);
    assert TailTokens(branch, 4, count) == Cost(branch[4], count) + TailTokens(branch, 5, count);
    assert TailTokens(branch, 3, count) == Cost(branch[3], count) + TailTokens(branch, 4, count);
    assert TailTokens(branch, 2, count) == Cost(branch[2], count) + TailTokens(branch, 3, count);
    assert ReachingIndex(branch, 1, 3, 2 * c, count) == Some(2);
    assert ReachingIndex(branch, 1, 5, 2 * c, count) == ReachingIndex(branch, 1, 4, 2 * c, count) == Some(2);
    assert LastInContext(branch) == Some(4);
    var cut := CutPointOf(branch, 1, 2 * c, count);
    assert cut.firstKept == 2;
    KeptTail(branch, cut, count, PlanOf(branch, 2 * c, count).plan);
    KeptIdsMembers(branch[2..], branch[3].id);
    assert branch[2..][1] == branch[3];
  }

  lemma SaidCosts(id: string, role: Role, content: string, count: TokenCounter)
    requires role in {RoleUser, RoleAssistant} && content != "" && !IsSpace(content[0])
    ensures IsHistory(EntryOf(Said(id, role, content))) && EntryOf(Said(id, role, content)).id == id
    ensures Cost(EntryOf(Said(id, role, content)), count) == count(content)
  {
    hide EntryOf;
    SaidIsHistory(id, role, content);
  }

  lemma ThreeMessagesRun(events: seq<Event>, count: TokenCounter)
    requires |events| >= 3 && events[0] == Said("1", RoleUser, "y")
    requires events[1] == Said("2", RoleAssistant, "y") && events[2] == Said("3", RoleAssistant, "y")
    ensures Run(events[..3], count) == State([EntryOf(events[0]), EntryOf(events[1]), EntryOf(events[2])], [])
  {
    hide EntryOf, Run, Cost;
    SaidCosts("1", RoleUser, "y", count);
    SaidCosts("2", RoleAssistant, "y", count);
    NothingRuns(events, count);
    var a, b := EntryOf(events[0]), EntryOf(events[1]);
    AppendRuns(events, 0, State([], []), count);
    NewId([a], "2", '2');
    AppendRuns(events, 1, State([a], []), count);
    NewId([a, b], "3", '3');
    AppendRuns(events, 2, State([a, b], []), count);
  }

  lemma CompactionRuns(events: seq<Event>, s: State, c: nat, count: TokenCounter) returns (first: Plan)
    requires |events| >= 4 && Run(events[..3], count) == s && |s.branch| == 3 && s.summarized == []
    requires s.branch[0].id == "1" && s.branch[1].id == "2" && s.branch[2].id == "3"
    requires forall i | 0 <= i < 3 :: IsHistory(s.branch[i]) && Cost(s.branch[i], count) == c
    requires events[3].Compact? && events[3].id == "4" && events[3].target == 2 * c && events[3].chosen.None?
    requires Accepted(events[3].summary) && c > 0
    ensures first.firstKeptId == "2"
    ensures Run(events[..4], count) == State(s.branch + [CompactionOf(events[3], first)], [first.summarizedIds])
  {
    hide Run, PlanOf, Accepted, CompactionOf, Boundary, History, IsFacingMessage, Cost;
    FirstPlan(s.branch, c, count);
    first := PlanOf(s.branch, 2 * c, count).plan;
    PlanAdvances(s.branch, 2 * c, None, count, first);
    NewId(s.branch, "4", '4');
    CompactRuns(events, 3, s, count, first);
  }

  lemma LastMessageRuns(events: seq<Event>, s: State, count: TokenCounter)
    requires |events| == 5 && |s.branch| == 4 && Run(events[..4], count) == s
    requires s.branch[0].id == "1" && s.branch[1].id == "2" && s.branch[2].id == "3" && s.branch[3].id == "4"
    requires events[4] == Said("5", RoleUser, "y")
    ensures Run(events, count) == s.(branch := s.branch + [EntryOf(events[4])])
  {
    hide EntryOf, Run;
    NewId(s.branch, "5", '5');
    AppendRuns(events, 4, s, count);
    assert events[..5] == events;
  }

  lemma BranchOfKeepingRun(summary: string, count: TokenCounter) returns (first: Plan)
    requires Accepted(summary) && count("y") > 0
    ensures first.firstKeptId == "2"
    ensures Run(KeepingRun(summary, count), count).branch ==
      [EntryOf(Said("1", RoleUser, "y")), EntryOf(Said("2", RoleAssistant, "y")),
       EntryOf(Said("3", RoleAssistant, "y")),
       CompactionOf(Compact("4", 2 * count("y"), None, summary, 0), first), EntryOf(Said("5", RoleUser, "y"))]
  {
    hide EntryOf, Run, PlanOf, Accepted, CompactionOf, Cost, IsHistory;
    var events := KeepingRun(summary, count);
    ThreeMessagesRun(events, count);
    SaidCosts("1", RoleUser, "y", count);
    SaidCosts("2", RoleAssistant, "y", count);
    SaidCosts("3", RoleAssistant, "y", count);
    first := CompactionRuns(events, Run(events[..3], count), count("y"), count);
    CompactionHasId(events[3], first);
    LastMessageRuns(events, Run(events[..4], count), count);
  }

  /** The extension may choose the first compaction of that run: it stands in the planned tail. */
  lemma CompactionMayBeChosen(summary: string, count: TokenCounter)
    requires Accepted(summary) && count("y") > 0
    ensures var branch := Run(KeepingRun(summary, count), count).branch;
      && PlanFor(branch, 2 * count("y"), Some("4"), count).Planned?
      && !KeepsHistory(branch, Choice(summary, count)) && "6" !in Ids(branch)
  {
    hide PlanOf, PlanFrom, Accepted, EntryOf, Run, IsFacingMessage, Cost;
    var branch := Run(KeepingRun(summary, count), count).branch;
    var first := BranchOfKeepingRun(summary, count);
    SaidCosts("1", RoleUser, "y", count);
    SaidCosts("2", RoleAssistant, "y", count);
    SaidCosts("3", RoleAssistant, "y", count);
    SaidCosts("5", RoleUser, "y", count);
    ChoosesNothing(KeepingRun(summary, count), count);
    RunsAreGood(KeepingRun(summary, count), count);
    WellCutIsStored(branch);
    SecondPlanKeepsCompaction(branch, count("y"), count);
    ChosenInTailIsPlanned(branch, 2 * count("y"), "4", count, PlanOf(branch, 2 * count("y"), count).plan);
    IndexByIdDistinct(branch, 3);
    NewId(branch, "6", '6');
  }

  /**
   * For every accepted summary: after that choice the planner's fold and the store's context send the model different
   * messages.
   */
  lemma ReconstructionsMayDiffer(summary: string, count: TokenCounter)
    requires Accepted(summary) && count("y") > 0
    ensures !Agree(Run(KeepingRun(summary, count) + [Choice(summary, count)], count).branch)
  {
    hide Run, Agree, PlanFor, KeepsHistory, Accepted, KeepingRun;
    CompactionMayBeChosen(summary, count);
    assert Orderly(KeepingRun(summary, count), count) by {
      KeepingRunIsOrderly(summary, count);
    }
    AgreeExactlyUnlessCompactionKept(KeepingRun(summary, count), Choice(summary, count), count);
  }

  lemma KeepingRunIsOrderly(summary: string, count: TokenCounter)
    ensures Orderly(KeepingRun(summary, count), count)
  {
    ChoosesNothing(KeepingRun(summary, count), count);
  }
}
