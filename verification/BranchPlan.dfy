/** The compaction plan of a branch and what it promises (internal/compaction/plan.go). */
module BranchPlan {
  import opened Text
  import opened Entries
  import opened Groups
  import opened Planner
  import RecentTail

  function LastInContext(branch: seq<Entry>): (r: Option<nat>)
    ensures r.Some? ==> r.value < |branch| && InContext(branch[r.value])
    ensures forall i | (if r.Some? then r.value + 1 else 0) <= i < |branch| :: !InContext(branch[i])
  {
    if branch == [] then None
    else
      var n := |branch| - 1;
      if InContext(branch[n]) then Some(n) else LastInContext(branch[..n])
  }

  function ImageCount(parts: seq<Part>): nat {
    if parts == [] then 0 else (if parts[0].ImagePart? then 1 else 0) + ImageCount(parts[1..])
  }

  function ImageDescription(m: Message): string {
    var images := ImageCount(m.parts);
    if images == 0 then "" else "[attached images: " + Decimal(images) + "]"
  }

  function SplitTurnLine(m: Message): string {
    var content := TrimSpace(m.content);
    var images := ImageDescription(m);
    if content == "" && images == "" then ""
    else
      "\n[" + RoleName(m.role) + "]\n" + content + (if content != "" && images != "" then "\n" else "") + images + "\n"
  }

  function SplitTurnLines(ms: seq<Message>): string {
    if ms == [] then "" else SplitTurnLine(ms[0]) + SplitTurnLines(ms[1..])
  }

  const SPLIT_TURN_INTRODUCTION :=
    "The compaction boundary split an in-progress turn. The following earlier messages from that turn were compacted:\n"

  function FormatSplitTurn(ms: seq<Message>): string {
    if ms == [] then "" else TrimSpace(SPLIT_TURN_INTRODUCTION + SplitTurnLines(ms))
  }

  /** The messages of the history entries in lo..hi. */
  function RangeMessages(branch: seq<Entry>, lo: nat, hi: nat): seq<Message>
    requires lo <= hi <= |branch|
  {
    HistoryMessages(History(branch[lo..hi]))
  }

  method MessagesInRange(branch: seq<Entry>, lo: nat, hi: nat) returns (messages: seq<Message>, ids: seq<string>)
    requires lo <= hi <= |branch|
    ensures messages == RangeMessages(branch, lo, hi)
    ensures ids == Ids(History(branch[lo..hi]))
  {
    hide IsHistory, History, RangeMessages, Ids;
    NothingInRange(branch, lo);
    messages, ids := [], [];
    for index := lo to hi
      invariant messages == RangeMessages(branch, lo, index)
      invariant ids == Ids(History(branch[lo..index]))
    {
      RangeNext(branch, lo, index);
      if IsHistory(branch[index]) {
        messages := messages + [HistoryMessage(branch[index])];
        ids := ids + [branch[index].id];
      }
    }
  }

  lemma NothingInRange(branch: seq<Entry>, lo: nat)
    requires lo <= |branch|
    ensures RangeMessages(branch, lo, lo) == [] && Ids(History(branch[lo..lo])) == []
  {
  }

  lemma RangeNext(branch: seq<Entry>, lo: nat, index: nat)
    requires lo <= index < |branch|
    ensures RangeMessages(branch, lo, index + 1) == RangeMessages(branch, lo, index)
      + (if IsHistory(branch[index]) then [HistoryMessage(branch[index])] else [])
    ensures Ids(History(branch[lo..index + 1])) == Ids(History(branch[lo..index]))
      + (if IsHistory(branch[index]) then [branch[index].id] else [])
  {
    hide IsHistory, History;
    HistoryAppend(branch, lo, index);
  }

  lemma RangeSplit(branch: seq<Entry>, lo: nat, mid: nat, hi: nat)
    requires lo <= mid <= hi <= |branch|
    ensures RangeMessages(branch, lo, hi) == RangeMessages(branch, lo, mid) + RangeMessages(branch, mid, hi)
    ensures Ids(History(branch[lo..hi])) == Ids(History(branch[lo..mid])) + Ids(History(branch[mid..hi]))
  {
    hide History, IsHistory;
    HistorySplit(branch, lo, mid, hi);
    HistoryMessagesConcat(History(branch[lo..mid]), History(branch[mid..hi]));
  }

  /** What is sent to be summarised when the cut splits a turn, and otherwise. */
  function SummaryMessages(branch: seq<Entry>, start: nat, cut: CutPoint): seq<Message>
    requires start <= cut.firstKept <= |branch|
    requires cut.isSplitTurn ==> start <= cut.turnStart <= cut.firstKept
  {
    if cut.isSplitTurn && RangeMessages(branch, start, cut.turnStart) != [] then
      RangeMessages(branch, start, cut.turnStart)
    else
      RangeMessages(branch, start, cut.firstKept)
  }

  function SplitTurnSummary(branch: seq<Entry>, start: nat, cut: CutPoint): string
    requires start <= cut.firstKept <= |branch|
    requires cut.isSplitTurn ==> start <= cut.turnStart <= cut.firstKept
  {
    if cut.isSplitTurn && RangeMessages(branch, start, cut.turnStart) != [] then
      FormatSplitTurn(RangeMessages(branch, cut.turnStart, cut.firstKept))
    else ""
  }

  method SummaryPayload(branch: seq<Entry>, start: nat, cut: CutPoint)
    returns (messages: seq<Message>, ids: seq<string>, split: string)
    requires start <= cut.firstKept <= |branch|
    requires cut.isSplitTurn ==> start <= cut.turnStart <= cut.firstKept
    ensures messages == SummaryMessages(branch, start, cut)
    ensures ids == Ids(History(branch[start..cut.firstKept]))
    ensures split == SplitTurnSummary(branch, start, cut)
  {
    hide History, RangeMessages;
    var end := if cut.isSplitTurn then cut.turnStart else cut.firstKept;
    messages, ids := MessagesInRange(branch, start, end);
    if !cut.isSplitTurn {
      return messages, ids, "";
    }
    var prefixMessages, prefixIds := MessagesInRange(branch, cut.turnStart, cut.firstKept);
    RangeSplit(branch, start, cut.turnStart, cut.firstKept);
    ids := ids + prefixIds;
    if |messages| == 0 {
      return messages + prefixMessages, ids, "";
    }
    split := FormatSplitTurn(prefixMessages);
  }

  function KeptIds(entries: seq<Entry>): seq<string> {
    if entries == [] then []
    else
      var n := |entries| - 1;
      KeptIds(entries[..n]) + (if InContext(entries[n]) then [entries[n].id] else [])
  }

  method CollectKeptIds(entries: seq<Entry>) returns (ids: seq<string>)
    ensures ids == KeptIds(entries)
  {
    ids := [];
    for index := 0 to |entries|
      invariant ids == KeptIds(entries[..index])
    {
      if InContext(entries[index]) {
        ids := ids + [entries[index].id];
      }
      assert entries[..index + 1][..index] == entries[..index];
    }
    assert entries[..|entries|] == entries;
  }

  /** The plan built from a cut that leaves history on both sides. */
  function PlanAt(branch: seq<Entry>, start: nat, cut: CutPoint, count: TokenCounter): Plan
    requires start <= cut.firstKept < |branch|
    requires cut.isSplitTurn ==> start <= cut.turnStart <= cut.firstKept
  {
    var messages := SummaryMessages(branch, start, cut);
    var ids := Ids(History(branch[start..cut.firstKept]));
    Plan(
      branch[cut.firstKept].id,
      cut.firstKept,
      messages,
      PreviousSummary(branch),
      SplitTurnSummary(branch, start, cut),
      ids,
      KeptIds(branch[cut.firstKept..]),
      GroupsOf(messages, ids),
      TokensOfBranch(branch, count))
  }

  function PlanOf(branch: seq<Entry>, target: int, count: TokenCounter): PlanResult {
    var latest := LastInContext(branch);
    if branch == [] || latest.None? then NothingToDo(NotEnoughHistory)
    else if branch[latest.value].entryType == CompactionEntry then NothingToDo(NothingNew)
    else if target <= 0 then NothingToDo(BadTarget)
    else
      var start := Boundary(branch);
      var cut := CutPointOf(branch, start, target, count);
      if cut.firstKept >= |branch| || NextHistory(branch, start) >= cut.firstKept then NothingToDo(NotEnoughOldHistory)
      else Planned(PlanAt(branch, start, cut, count))
  }

  /** PlanBranch; its last error, that nothing was selected, never occurs. */
  method PlanBranch(branch: seq<Entry>, target: int, count: TokenCounter) returns (r: PlanResult)
    ensures r == PlanOf(branch, target, count)
    ensures r != NothingToDo(NothingSelected)
  {
    if |branch| == 0 {
      return NothingToDo(NotEnoughHistory);
    }
    var latest := LastInContext(branch);
    if latest.None? {
      return NothingToDo(NotEnoughHistory);
    }
    if branch[latest.value].entryType == CompactionEntry {
      return NothingToDo(NothingNew);
    }
    if target <= 0 {
      return NothingToDo(BadTarget);
    }
    var previousSummary, start := PreviousCompactionBoundary(branch);
    var cut := FindCutPoint(branch, start, target, count);
    if cut.firstKept >= |branch| || NextHistory(branch, start) >= cut.firstKept {
      return NothingToDo(NotEnoughOldHistory);
    }
    var messages, ids, split := SummaryPayload(branch, start, cut);
    SomethingSelected(branch, start, cut);
    if |messages| == 0 && TrimSpace(split) == "" {
      return NothingToDo(NothingSelected);
    }
    var keptIds := CollectKeptIds(branch[cut.firstKept..]);
    var groups := GroupsFromMessages(messages, ids);
    var tokens := BranchTokens(branch, count);
    r := Planned(Plan(
      branch[cut.firstKept].id, cut.firstKept, messages, previousSummary, split, ids, keptIds, groups, tokens));
  }

  /** The cut at an entry that an extension chose. */
  function ChosenCut(branch: seq<Entry>, start: nat, k: nat): (r: CutPoint)
    requires k < |branch|
    ensures r.firstKept == k
    ensures r.isSplitTurn ==> start <= r.turnStart <= k
  {
    var turn := if IsTurnStart(branch[k]) then -1 else TurnStart(branch, k, start);
    CutPoint(k, turn, turn >= 0)
  }

  /** The plan that keeps the branch from a chosen entry on. */
  function PlanFrom(branch: seq<Entry>, chosen: string, count: TokenCounter): PlanResult {
    match IndexById(branch, chosen)
    case None => NothingToDo(UnknownFirstKept)
    case Some(k) =>
      var start := Boundary(branch);
      if NextHistory(branch, start) >= k then NothingToDo(ChosenTooEarly)
      else if !InContext(branch[k]) then NothingToDo(ChosenNotFacing)
      else Planned(PlanAt(branch, start, ChosenCut(branch, start, k), count))
  }

  method PlanBranchFromFirstKept(branch: seq<Entry>, chosen: string, count: TokenCounter) returns (r: PlanResult)
    ensures r == PlanFrom(branch, chosen, count)
    ensures r != NothingToDo(NothingSelected)
  {
    hide PlanAt, SummaryMessages, SplitTurnSummary, GroupsOf, TokensOfBranch, History, KeptIds;
    var k := IndexOrLength(branch, chosen);
    if k == |branch| {
      return NothingToDo(UnknownFirstKept);
    }
    var previousSummary, start := PreviousCompactionBoundary(branch);
    if NextHistory(branch, start) >= k {
      return NothingToDo(ChosenTooEarly);
    }
    if !InContext(branch[k]) {
      return NothingToDo(ChosenNotFacing);
    }
    var turn := -1;
    if !IsTurnStart(branch[k]) {
      turn := FindTurnStart(branch, k, start);
    }
    var cut := CutPoint(k, turn, turn >= 0);
    var messages, ids, split := SummaryPayload(branch, start, cut);
    SomethingSelected(branch, start, cut);
    if |messages| == 0 && TrimSpace(split) == "" {
      return NothingToDo(NothingSelected);
    }
    var keptIds := CollectKeptIds(branch[k..]);
    var groups := GroupsFromMessages(messages, ids);
    var tokens := BranchTokens(branch, count);
    r := Planned(Plan(chosen, k, messages, previousSummary, split, ids, keptIds, groups, tokens));
    PlanParts(branch, start, cut, count);
  }

  lemma PlanParts(branch: seq<Entry>, start: nat, cut: CutPoint, count: TokenCounter)
    requires start <= cut.firstKept < |branch|
    requires cut.isSplitTurn ==> start <= cut.turnStart <= cut.firstKept
    ensures var messages := SummaryMessages(branch, start, cut);
      var ids := Ids(History(branch[start..cut.firstKept]));
      PlanAt(branch, start, cut, count) == Plan(
        branch[cut.firstKept].id, cut.firstKept, messages, PreviousSummary(branch),
        SplitTurnSummary(branch, start, cut), ids, KeptIds(branch[cut.firstKept..]), GroupsOf(messages, ids),
        TokensOfBranch(branch, count))
  {
  }

  /**
   * The planner's own plan, or the one from the entry that an extension chose instead, which must be in the tail that
   * the planner's own plan keeps.
   */
  function PlanFor(branch: seq<Entry>, target: int, chosen: Option<string>, count: TokenCounter): PlanResult {
    var own := PlanOf(branch, target, count);
    if own.NothingToDo? || chosen.None? then own
    else if chosen.value !in own.plan.keptIds then NothingToDo(ChosenOutsideTail)
    else if chosen.value == "" then own
    else PlanFrom(branch, chosen.value, count)
  }

  /** History between the boundary and the cut always yields messages to summarise. */
  lemma SomethingSelected(branch: seq<Entry>, start: nat, cut: CutPoint)
    requires start <= cut.firstKept <= |branch| && NextHistory(branch, start) < cut.firstKept
    requires cut.isSplitTurn ==> start <= cut.turnStart <= cut.firstKept
    ensures SummaryMessages(branch, start, cut) != []
    ensures History(branch[start..cut.firstKept]) != []
  {
    var first := NextHistory(branch, start);
    assert branch[start..cut.firstKept][first - start] == branch[first];
    HistoryMembers(branch[start..cut.firstKept], branch[first]);
  }

  // ----- what a plan promises -----

  ghost predicate IsPlan(branch: seq<Entry>, target: int, chosen: Option<string>, count: TokenCounter, plan: Plan) {
    PlanFor(branch, target, chosen, count) == Planned(plan)
  }

  /** The planner's own plan. */
  ghost predicate IsOwnPlan(branch: seq<Entry>, target: int, count: TokenCounter, plan: Plan) {
    PlanOf(branch, target, count) == Planned(plan)
  }

  /** The plan belongs to this cut, which leaves history before it. */
  ghost predicate IsPlanOfCut(branch: seq<Entry>, cut: CutPoint, count: TokenCounter, plan: Plan) {
    && NextHistory(branch, Boundary(branch)) < cut.firstKept < |branch|
    && (cut.isSplitTurn ==> Boundary(branch) <= cut.turnStart <= cut.firstKept)
    && plan == PlanAt(branch, Boundary(branch), cut, count)
  }

  /** The cut behind the planner's own plan. */
  lemma OwnPlanIsCut(branch: seq<Entry>, target: int, count: TokenCounter, plan: Plan)
    requires IsOwnPlan(branch, target, count, plan)
    ensures target > 0
    ensures plan.firstKeptIndex == CutIndex(branch, Boundary(branch), target, count)
    ensures IsPlanOfCut(branch, CutPointOf(branch, Boundary(branch), target, count), count, plan)
  {
    hide PlanAt, CutIndex, Boundary, NextHistory, CutPointOf;
    PlanIndex(branch, Boundary(branch), CutPointOf(branch, Boundary(branch), target, count), count);
  }

  /** The cut behind any plan. Only a chosen one may keep the previous compaction itself. */
  lemma PlanIsCut(branch: seq<Entry>, target: int, chosen: Option<string>, count: TokenCounter, plan: Plan)
    returns (cut: CutPoint)
    requires IsPlan(branch, target, chosen, count, plan)
    ensures IsPlanOfCut(branch, cut, count, plan) && plan.firstKeptIndex == cut.firstKept
    ensures InContext(branch[cut.firstKept])
    ensures branch[cut.firstKept].entryType == CompactionEntry ==>
      chosen.Some? && chosen.value != "" && IndexById(branch, chosen.value) == Some(cut.firstKept)
  {
    hide PlanAt, CutIndex, Boundary, NextHistory, CutPointOf, PlanOf, ChosenCut, IsFacingMessage;
    var own := PlanOf(branch, target, count).plan;
    if chosen.None? || chosen.value == "" {
      OwnPlanIsCut(branch, target, count, own);
      cut := CutPointOf(branch, Boundary(branch), target, count);
    } else {
      cut := ChosenCut(branch, Boundary(branch), IndexById(branch, chosen.value).value);
    }
    PlanIndex(branch, Boundary(branch), cut, count);
  }

  lemma PlanIndex(branch: seq<Entry>, start: nat, cut: CutPoint, count: TokenCounter)
    requires start <= cut.firstKept < |branch|
    requires cut.isSplitTurn ==> start <= cut.turnStart <= cut.firstKept
    ensures PlanAt(branch, start, cut, count).firstKeptIndex == cut.firstKept
    ensures PlanAt(branch, start, cut, count).firstKeptId == branch[cut.firstKept].id
  {
  }

  /**
   * A plan moves the boundary strictly forward, to an entry of the context, and summarises exactly the history entries
   * between the old boundary and the new one. That entry is history unless an extension chose a compaction.
   */
  lemma PlanAdvances(branch: seq<Entry>, target: int, chosen: Option<string>, count: TokenCounter, plan: Plan)
    requires IsPlan(branch, target, chosen, count, plan)
    ensures Boundary(branch) < plan.firstKeptIndex < |branch|
    ensures InContext(branch[plan.firstKeptIndex]) && plan.firstKeptId == branch[plan.firstKeptIndex].id
    ensures IsHistory(branch[plan.firstKeptIndex])
      || (chosen.Some? && chosen.value != "" && IndexById(branch, chosen.value) == Some(plan.firstKeptIndex)
          && branch[plan.firstKeptIndex].entryType == CompactionEntry)
    ensures plan.summarizedIds == Ids(History(branch[Boundary(branch)..plan.firstKeptIndex]))
    ensures plan.summarizedIds != [] && plan.messages != []
  {
    hide History, GroupsOf, TokensOfBranch, KeptIds, SplitTurnSummary, IsPlan, NextHistory, Boundary, SummaryMessages,
      IsFacingMessage;
    var cut := PlanIsCut(branch, target, chosen, count, plan);
    SomethingSelected(branch, Boundary(branch), cut);
  }

  lemma {:induction false} KeptIdsMembers(entries: seq<Entry>, id: string)
    ensures id in KeptIds(entries) <==> exists i :: 0 <= i < |entries| && InContext(entries[i]) && entries[i].id == id
  {
    hide InContext;
    if entries != [] {
      var n := |entries| - 1;
      KeptIdsMembers(entries[..n], id);
      assert forall i | 0 <= i < n :: entries[..n][i] == entries[i];
    }
  }

  /** Every entry of the planned tail may be chosen: none of the refusals of the second planner occurs for it. */
  lemma ChosenInTailIsPlanned(branch: seq<Entry>, target: int, chosen: string, count: TokenCounter, own: Plan)
    requires DistinctIds(branch) && IsOwnPlan(branch, target, count, own) && chosen in own.keptIds
    ensures PlanFrom(branch, chosen, count).Planned?
    ensures var plan := PlanFrom(branch, chosen, count).plan;
      own.firstKeptIndex <= plan.firstKeptIndex && plan.firstKeptId == chosen
  {
    hide IsOwnPlan, InContext, PlanAt, PlanFrom, KeptIds, NextHistory, Boundary, CutPointOf, CutIndex;
    OwnPlanIsCut(branch, target, count, own);
    var k0 := own.firstKeptIndex;
    KeptTail(branch, CutPointOf(branch, Boundary(branch), target, count), count, own);
    KeptIdsMembers(branch[k0..], chosen);
    var i :| 0 <= i < |branch| - k0 && InContext(branch[k0..][i]) && branch[k0..][i].id == chosen;
    assert branch[k0 + i] == branch[k0..][i];
    IndexByIdDistinct(branch, k0 + i);
    PlanFromAt(branch, chosen, k0 + i, count);
  }

  lemma PlanFromAt(branch: seq<Entry>, chosen: string, k: nat, count: TokenCounter)
    requires IndexById(branch, chosen) == Some(k) && NextHistory(branch, Boundary(branch)) < k && InContext(branch[k])
    ensures PlanFrom(branch, chosen, count).Planned?
    ensures var plan := PlanFrom(branch, chosen, count).plan; plan.firstKeptIndex == k && plan.firstKeptId == chosen
  {
    hide InContext, PlanAt, NextHistory, Boundary, ChosenCut;
    PlanIndex(branch, Boundary(branch), ChosenCut(branch, Boundary(branch), k), count);
  }

  lemma KeptTail(branch: seq<Entry>, cut: CutPoint, count: TokenCounter, plan: Plan)
    requires IsPlanOfCut(branch, cut, count, plan)
    ensures plan.firstKeptIndex == cut.firstKept && plan.keptIds == KeptIds(branch[cut.firstKept..])
  {
  }

  lemma {:induction false} NoHistoryInRange(branch: seq<Entry>, lo: nat, hi: nat)
    requires lo <= hi <= |branch| && forall j | lo <= j < hi :: !IsHistory(branch[j])
    ensures History(branch[lo..hi]) == []
    decreases hi
  {
    if lo < hi {
      NoHistoryInRange(branch, lo, hi - 1);
      HistoryAppend(branch, lo, hi - 1);
    }
  }

  /** A range with messages starts with that of its first history entry. */
  lemma FirstInRange(branch: seq<Entry>, lo: nat, hi: nat)
    requires lo <= hi <= |branch| && RangeMessages(branch, lo, hi) != []
    ensures NextHistory(branch, lo) < hi
    ensures RangeMessages(branch, lo, hi)[0] == HistoryMessage(branch[NextHistory(branch, lo)])
  {
    hide IsHistory;
    var first := NextHistory(branch, lo);
    if first >= hi {
      NoHistoryInRange(branch, lo, hi);
    } else {
      NoHistoryInRange(branch, lo, first);
      HistorySplit(branch, lo, first, hi);
      assert branch[first..hi][0] == branch[first];
    }
  }

  lemma SummaryStartsAtBoundary(branch: seq<Entry>, start: nat, cut: CutPoint)
    requires start <= cut.firstKept <= |branch|
    requires cut.isSplitTurn ==> start <= cut.turnStart <= cut.firstKept
    requires SummaryMessages(branch, start, cut) != []
    ensures NextHistory(branch, start) < cut.firstKept
    ensures SummaryMessages(branch, start, cut)[0] == HistoryMessage(branch[NextHistory(branch, start)])
  {
    hide IsHistory, RangeMessages, NextHistory;
    if cut.isSplitTurn && RangeMessages(branch, start, cut.turnStart) != [] {
      FirstInRange(branch, start, cut.turnStart);
    } else {
      FirstInRange(branch, start, cut.firstKept);
    }
  }

  /** What is summarised starts with the first history entry from the boundary on, whether or not a turn is split. */
  lemma PlanStartsAtBoundary(branch: seq<Entry>, target: int, chosen: Option<string>, count: TokenCounter, plan: Plan)
    requires IsPlan(branch, target, chosen, count, plan)
    ensures plan.messages != [] && NextHistory(branch, Boundary(branch)) < plan.firstKeptIndex < |branch|
    ensures plan.messages[0] == HistoryMessage(branch[NextHistory(branch, Boundary(branch))])
  {
    hide IsPlan, IsHistory, SummaryMessages, NextHistory, Boundary, TokensOfBranch, KeptIds, GroupsOf, SplitTurnSummary,
      History;
    var cut := PlanIsCut(branch, target, chosen, count, plan);
    PlanAdvances(branch, target, chosen, count, plan);
    SummaryStartsAtBoundary(branch, Boundary(branch), cut);
  }

  /**
   * The retained tail: its content after the first kept entry is below the target. With the first kept entry it reaches
   * the target, unless the cut was forced forward and only the entry at the boundary was summarised.
   */
  lemma RetainedTailIsTight(branch: seq<Entry>, target: int, count: TokenCounter, plan: Plan)
    requires IsOwnPlan(branch, target, count, plan)
    ensures Boundary(branch) < plan.firstKeptIndex < |branch|
    ensures TailTokens(branch, plan.firstKeptIndex + 1, count) < target
    ensures TailTokens(branch, plan.firstKeptIndex, count) >= target
      || plan.summarizedIds == [branch[Boundary(branch)].id]
  {
    hide IsOwnPlan, IsHistory, TailTokens, Boundary, CutIndex, CutPointOf, PlanAt, NextHistory, ReachingIndex, History,
      Ids;
    var start := Boundary(branch);
    var cut := plan.firstKeptIndex;
    OwnPlanIsCut(branch, target, count, plan);
    OwnPlanSummarises(branch, target, count, plan);
    CutCases(branch, start, target, count);
    var reached := ReachingIndex(branch, start, |branch|, target, count);
    if reached.Some? && reached.value == cut {
      AfterReaching(branch, start, cut, target, count);
    } else {
      ForcedCut(branch, start, cut, target, count);
    }
  }

  lemma OwnPlanSummarises(branch: seq<Entry>, target: int, count: TokenCounter, plan: Plan)
    requires IsOwnPlan(branch, target, count, plan)
    ensures Boundary(branch) < plan.firstKeptIndex < |branch|
    ensures plan.summarizedIds == Ids(History(branch[Boundary(branch)..plan.firstKeptIndex]))
  {
    hide PlanOf, PlanFrom;
    assert IsPlan(branch, target, None, count, plan);
    PlanAdvances(branch, target, None, count, plan);
  }

  /** A cut past the first history entry stands at the reaching index, or was forced to the second history entry. */
  lemma CutCases(branch: seq<Entry>, start: nat, target: int, count: TokenCounter)
    requires start <= |branch| && NextHistory(branch, start) < CutIndex(branch, start, target, count) < |branch|
    ensures var cut := CutIndex(branch, start, target, count);
      var reached := ReachingIndex(branch, start, |branch|, target, count);
      reached == Some(cut) ||
        (&& start < |branch| && NextHistory(branch, start) == start && NextHistory(branch, start + 1) == cut
         && (reached.Some? ==> reached.value <= start))
  {
    hide IsHistory;
  }

  /** When nothing after the boundary reaches the target, the cut falls on the second history entry. */
  lemma ForcedCut(branch: seq<Entry>, start: nat, cut: nat, target: int, count: TokenCounter)
    requires start < cut < |branch| && target > 0
    requires NextHistory(branch, start) == start && NextHistory(branch, start + 1) == cut
    requires var reached := ReachingIndex(branch, start, |branch|, target, count);
      reached.Some? ==> reached.value <= start
    ensures TailTokens(branch, cut + 1, count) < target
    ensures Ids(History(branch[start..cut])) == [branch[start].id]
  {
    hide IsFacingMessage;
    AfterReaching(branch, start, start, target, count);
    TailTokensShrink(branch, start + 1, cut + 1, count);
    NoHistoryInRange(branch, start + 1, cut);
    HistorySplit(branch, start, start + 1, cut);
    HistoryAppend(branch, start, start);
    assert branch[start..start] == [];
  }

  /** Below the newest reaching index the tail stays under the target. */
  lemma AfterReaching(branch: seq<Entry>, start: nat, index: nat, target: int, count: TokenCounter)
    requires start <= index < |branch| && target > 0
    requires var reached := ReachingIndex(branch, start, |branch|, target, count);
      reached.Some? ==> reached.value <= index
    ensures TailTokens(branch, index + 1, count) < target
  {
    var next := NextHistory(branch, index + 1);
    TailTokensShrink(branch, index + 1, next, count);
  }

  /** Planned with the runtime's own target, the content after the first kept entry is under a third of the branch. */
  lemma RetainedTailUnderAThird(
    branch: seq<Entry>, contextWindow: int, configured: int, count: TokenCounter, plan: Plan)
    requires TokensOfBranch(branch, count) > 0
    requires IsOwnPlan(
      branch, RecentTail.CompactionTailTokens(contextWindow, TokensOfBranch(branch, count), configured), count, plan)
    ensures 3 * TailTokens(branch, plan.firstKeptIndex + 1, count) < TokensOfBranch(branch, count) == plan.tokensBefore
    ensures configured > 0 ==> TailTokens(branch, plan.firstKeptIndex + 1, count) < configured
  {
    var target := RecentTail.CompactionTailTokens(contextWindow, TokensOfBranch(branch, count), configured);
    RetainedTailIsTight(branch, target, count, plan);
  }
}
