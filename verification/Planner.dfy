/** Choosing what a compaction summarises (internal/compaction/plan.go). */
module Planner {
  import opened Text
  import opened Entries
  import opened Groups

  type TokenCounter = string -> nat

  datatype CutPoint = CutPoint(firstKept: nat, turnStart: int, isSplitTurn: bool)

  datatype Plan = Plan(
    firstKeptId: string,
    firstKeptIndex: nat,
    messages: seq<Message>,
    previousSummary: string,
    splitTurnSummary: string,
    summarizedIds: seq<string>,
    keptIds: seq<string>,
    summaryGroups: seq<SemanticGroup>,
    tokensBefore: nat
  )

  datatype PlanError =
    | NotEnoughHistory
    | NothingNew
    | BadTarget
    | NotEnoughOldHistory
    | NothingSelected
    | UnknownFirstKept
    | ChosenTooEarly
    | ChosenNotFacing
    | ChosenOutsideTail

  datatype PlanResult = Planned(plan: Plan) | NothingToDo(error: PlanError)

  // ----- the effective branch and its size -----

  function Normalize(e: Entry): Entry {
    e.(message := CandidateMessage(e))
  }

  function ModelFacingEntries(branch: seq<Entry>): seq<Entry> {
    if branch == [] then []
    else
      var n := |branch| - 1;
      ModelFacingEntries(branch[..n]) + (if InContext(branch[n]) then [Normalize(branch[n])] else [])
  }

  /** A compaction replaces everything before its first kept entry; an unknown first kept entry keeps nothing. */
  function Fold(effective: seq<Entry>, e: Entry): seq<Entry> {
    if e.entryType != CompactionEntry then effective + [e]
    else match IndexById(effective, e.firstKeptId)
      case None => [e]
      case Some(k) => [e] + effective[k..]
  }

  function Effective(facing: seq<Entry>): seq<Entry> {
    if facing == [] then []
    else
      var n := |facing| - 1;
      Fold(Effective(facing[..n]), facing[n])
  }

  method EffectiveModelFacingEntries(branch: seq<Entry>) returns (effective: seq<Entry>)
    ensures effective == Effective(ModelFacingEntries(branch))
  {
    var entries := [];
    for index := 0 to |branch|
      invariant entries == ModelFacingEntries(branch[..index])
    {
      if InContext(branch[index]) {
        entries := entries + [Normalize(branch[index])];
      }
      assert branch[..index + 1][..index] == branch[..index];
    }
    assert branch[..|branch|] == branch;
    effective := [];
    for index := 0 to |entries|
      invariant effective == Effective(entries[..index])
    {
      var entry := entries[index];
      assert entries[..index + 1][..index] == entries[..index];
      if entry.entryType != CompactionEntry {
        effective := effective + [entry];
      } else {
        var firstKept := IndexOrLength(effective, entry.firstKeptId);
        effective := [entry] + effective[firstKept..];
      }
    }
    assert entries[..|entries|] == entries;
  }

  method IndexOrLength(entries: seq<Entry>, id: string) returns (index: nat)
    ensures index <= |entries|
    ensures index == match IndexById(entries, id) case None => |entries| case Some(k) => k
  {
    index := 0;
    while index < |entries|
      invariant index <= |entries|
      invariant forall i | 0 <= i < index :: entries[i].id != id
    {
      if entries[index].id == id {
        return;
      }
      index := index + 1;
    }
  }

  /** The messages a model would be sent for effective entries. */
  function ReplayedMessages(entries: seq<Entry>): seq<Message> {
    if entries == [] then []
    else
      var n := |entries| - 1;
      ReplayedMessages(entries[..n]) +
      (if InContext(entries[n]) then [FacingMessage(CandidateMessage(entries[n]))] else [])
  }

  function MessageTokens(ms: seq<Message>, count: TokenCounter): nat {
    if ms == [] then 0
    else
      var n := |ms| - 1;
      MessageTokens(ms[..n], count) + count(ms[n].content) + PartTokens(ms[n].parts)
  }

  function TokensOfBranch(branch: seq<Entry>, count: TokenCounter): nat {
    MessageTokens(ReplayedMessages(Effective(ModelFacingEntries(branch))), count)
  }

  method BranchTokens(branch: seq<Entry>, count: TokenCounter) returns (tokens: nat)
    ensures tokens == TokensOfBranch(branch, count)
  {
    hide InContext, FacingMessage, CandidateMessage, PartTokens, Effective, ModelFacingEntries, ReplayedMessages,
      MessageTokens;
    NothingReplayed(count);
    var effective := EffectiveModelFacingEntries(branch);
    var messages := [];
    for index := 0 to |effective|
      invariant messages == ReplayedMessages(effective[..index])
    {
      ReplayedNext(effective, index);
      if InContext(effective[index]) {
        messages := messages + [FacingMessage(CandidateMessage(effective[index]))];
      }
    }
    assert effective[..|effective|] == effective;
    tokens := 0;
    for index := 0 to |messages|
      invariant tokens == MessageTokens(messages[..index], count)
    {
      MessageTokensNext(messages, index, count);
      tokens := tokens + count(messages[index].content) + PartTokens(messages[index].parts);
    }
    assert messages[..|messages|] == messages;
  }

  lemma NothingReplayed(count: TokenCounter)
    ensures ReplayedMessages([]) == [] && MessageTokens([], count) == 0
  {
  }

  lemma ReplayedNext(entries: seq<Entry>, index: nat)
    requires index < |entries|
    ensures ReplayedMessages(entries[..index + 1]) ==
      ReplayedMessages(entries[..index]) +
      (if InContext(entries[index]) then [FacingMessage(CandidateMessage(entries[index]))] else [])
  {
    assert entries[..index + 1][..index] == entries[..index];
  }

  lemma MessageTokensNext(messages: seq<Message>, index: nat, count: TokenCounter)
    requires index < |messages|
    ensures MessageTokens(messages[..index + 1], count) ==
      MessageTokens(messages[..index], count) + count(messages[index].content) + PartTokens(messages[index].parts)
  {
    assert messages[..index + 1][..index] == messages[..index];
  }

  // ----- the boundary left by the previous compaction -----

  function LastCompaction(branch: seq<Entry>): (r: Option<nat>)
    ensures r.Some? ==> r.value < |branch| && branch[r.value].entryType == CompactionEntry
    ensures r.Some? ==> forall i | r.value < i < |branch| :: branch[i].entryType != CompactionEntry
    ensures r.None? ==> forall i | 0 <= i < |branch| :: branch[i].entryType != CompactionEntry
  {
    if branch == [] then None
    else
      var n := |branch| - 1;
      if branch[n].entryType == CompactionEntry then Some(n) else LastCompaction(branch[..n])
  }

  function Boundary(branch: seq<Entry>): (r: nat)
    ensures r <= |branch|
  {
    match LastCompaction(branch)
    case None => 0
    case Some(c) =>
      match IndexById(branch, branch[c].firstKeptId)
      case None => c + 1
      case Some(k) => k
  }

  function PreviousSummary(branch: seq<Entry>): string {
    match LastCompaction(branch)
    case None => ""
    case Some(c) => branch[c].summary
  }

  method PreviousCompactionBoundary(branch: seq<Entry>) returns (summary: string, start: nat)
    ensures summary == PreviousSummary(branch) && start == Boundary(branch)
  {
    var index := |branch|;
    while index > 0
      invariant 0 <= index <= |branch|
      invariant LastCompaction(branch) == LastCompaction(branch[..index])
    {
      assert branch[..index][..index - 1] == branch[..index - 1];
      index := index - 1;
      if branch[index].entryType == CompactionEntry {
        var firstKept := IndexOrLength(branch, branch[index].firstKeptId);
        return branch[index].summary, if firstKept < |branch| then firstKept else index + 1;
      }
    }
    return "", 0;
  }

  // ----- the cut -----

  /** Index of the first history entry at or after i, or the branch length. */
  function NextHistory(entries: seq<Entry>, i: nat): (r: nat)
    requires i <= |entries|
    ensures i <= r <= |entries|
    ensures r < |entries| ==> IsHistory(entries[r])
    ensures forall j | i <= j < r :: !IsHistory(entries[j])
    decreases |entries| - i
  {
    if i == |entries| || IsHistory(entries[i]) then i else NextHistory(entries, i + 1)
  }

  function Cost(e: Entry, count: TokenCounter): nat {
    if IsHistory(e) then count(CandidateMessage(e).content) else 0
  }

  /** Content tokens of the history from index lo on. */
  function TailTokens(entries: seq<Entry>, lo: nat, count: TokenCounter): nat
    requires lo <= |entries|
    decreases |entries| - lo
  {
    if lo == |entries| then 0 else Cost(entries[lo], count) + TailTokens(entries, lo + 1, count)
  }

  lemma {:induction false} TailTokensShrink(entries: seq<Entry>, lo: nat, hi: nat, count: TokenCounter)
    requires lo <= hi <= |entries|
    ensures TailTokens(entries, hi, count) <= TailTokens(entries, lo, count)
    ensures (forall j | lo <= j < hi :: !IsHistory(entries[j])) ==>
      TailTokens(entries, hi, count) == TailTokens(entries, lo, count)
    decreases hi - lo
  {
    if lo < hi {
      TailTokensShrink(entries, lo + 1, hi, count);
    }
  }

  /** The newest index in lo..|entries| from which the tail holds at least `target` tokens. */
  function ReachingIndex(entries: seq<Entry>, lo: nat, hi: nat, target: int, count: TokenCounter): (r: Option<nat>)
    requires lo <= hi <= |entries|
    ensures r.Some? ==> lo <= r.value < hi && IsHistory(entries[r.value])
    ensures r.Some? ==> TailTokens(entries, r.value, count) >= target
    ensures forall j | (if r.Some? then r.value + 1 else lo) <= j < hi && IsHistory(entries[j]) ::
      TailTokens(entries, j, count) < target
    decreases hi
  {
    if hi == lo then None
    else if IsHistory(entries[hi - 1]) && TailTokens(entries, hi - 1, count) >= target then Some(hi - 1)
    else ReachingIndex(entries, lo, hi - 1, target, count)
  }

  /**
   * Where the tail is cut: at the reaching index, but always leaving a history entry before the cut when there is one.
   */
  function CutIndex(entries: seq<Entry>, start: nat, target: int, count: TokenCounter): (r: nat)
    requires start <= |entries|
    ensures start <= r <= |entries|
    ensures r < |entries| ==> r == start || IsHistory(entries[r])
  {
    var first := NextHistory(entries, start);
    if first == |entries| then start
    else
      var reached := match ReachingIndex(entries, start, |entries|, target, count)
        case None => first
        case Some(i) => i;
      if reached > start then reached
      else
        var next := NextHistory(entries, start + 1);
        if next < |entries| then next else start
  }

  predicate IsTurnStart(e: Entry) {
    IsHistory(e) && CandidateMessage(e).role in {RoleUser, RoleCustom}
  }

  /** Index of the turn start at or before `index`, or -1. */
  function TurnStart(entries: seq<Entry>, index: nat, start: nat): (r: int)
    requires index < |entries|
    ensures r == -1 || (start <= r <= index && IsTurnStart(entries[r]))
    ensures forall j | start <= j <= index && j > r :: !IsTurnStart(entries[j])
    decreases index
  {
    if index < start then -1
    else if IsTurnStart(entries[index]) then index
    else if index == 0 then -1
    else TurnStart(entries, index - 1, start)
  }

  function CutPointOf(entries: seq<Entry>, start: nat, target: int, count: TokenCounter): (r: CutPoint)
    requires start <= |entries|
    ensures r.firstKept == CutIndex(entries, start, target, count)
    ensures r.isSplitTurn ==> start <= r.turnStart <= r.firstKept
  {
    var cut := CutIndex(entries, start, target, count);
    if NextHistory(entries, start) == |entries| then CutPoint(cut, -1, false)
    else
      var turn := if IsTurnStart(entries[cut]) then -1 else TurnStart(entries, cut, start);
      CutPoint(cut, turn, turn >= 0)
  }

  predicate Increasing(indexes: seq<nat>) {
    forall i, j | 0 <= i < j < |indexes| :: indexes[i] < indexes[j]
  }

  method ValidCutPoints(entries: seq<Entry>, start: nat) returns (cuts: seq<nat>)
    requires start <= |entries|
    ensures Increasing(cuts)
    ensures forall c :: c in cuts <==> start <= c < |entries| && IsHistory(entries[c])
  {
    cuts := [];
    for index := start to |entries|
      invariant Increasing(cuts) && forall i | 0 <= i < |cuts| :: cuts[i] < index
      invariant forall c :: c in cuts <==> start <= c < index && IsHistory(entries[c])
    {
      if IsHistory(entries[index]) {
        cuts := cuts + [index];
      }
    }
  }

  method FirstCutPointAtOrAfter(cuts: seq<nat>, index: int) returns (cut: nat)
    requires cuts != [] && Increasing(cuts)
    ensures cut in cuts
    ensures cut >= index ==> forall c | c in cuts && c >= index :: cut <= c
    ensures cut < index ==> cut == cuts[|cuts| - 1] && forall c | c in cuts :: c <= cut
  {
    for i := 0 to |cuts|
      invariant forall j | 0 <= j < i :: cuts[j] < index
    {
      if cuts[i] >= index {
        return cuts[i];
      }
    }
    cut := cuts[|cuts| - 1];
  }

  method FindTurnStart(entries: seq<Entry>, index: nat, start: nat) returns (turn: int)
    requires start <= index < |entries|
    ensures turn == TurnStart(entries, index, start)
  {
    turn := index;
    while turn >= start
      invariant start - 1 <= turn <= index
      invariant forall j | turn < j <= index :: !IsTurnStart(entries[j])
    {
      if IsTurnStart(entries[turn]) {
        return;
      }
      turn := turn - 1;
    }
    turn := -1;
  }

  /** The backward scan that accumulates the tail until it reaches the target. */
  method ScanTail(entries: seq<Entry>, start: nat, target: int, count: TokenCounter) returns (reached: Option<nat>)
    requires start <= |entries| && target > 0
    ensures reached == ReachingIndex(entries, start, |entries|, target, count)
  {
    var accumulated := 0;
    var index := |entries|;
    while index > start
      invariant start <= index <= |entries|
      invariant accumulated == TailTokens(entries, index, count) && accumulated < target
      invariant ReachingIndex(entries, start, |entries|, target, count) ==
        ReachingIndex(entries, start, index, target, count)
    {
      index := index - 1;
      if IsHistory(entries[index]) {
        accumulated := accumulated + count(CandidateMessage(entries[index]).content);
        if accumulated >= target {
          return Some(index);
        }
      }
    }
    reached := None;
  }

  lemma CutPointsHead(entries: seq<Entry>, start: nat, cuts: seq<nat>)
    requires start <= |entries| && Increasing(cuts)
    requires forall c :: c in cuts <==> start <= c < |entries| && IsHistory(entries[c])
    ensures cuts == [] <==> NextHistory(entries, start) == |entries|
    ensures cuts != [] ==> cuts[0] == NextHistory(entries, start)
  {
    var first := NextHistory(entries, start);
    if first < |entries| {
      assert first in cuts;
    }
    if cuts != [] {
      assert cuts[0] in cuts;
    }
  }

  method FindCutPoint(entries: seq<Entry>, start: nat, target: int, count: TokenCounter) returns (r: CutPoint)
    requires start <= |entries| && target > 0
    ensures r == CutPointOf(entries, start, target, count)
  {
    hide IsHistory, ReachingIndex, TurnStart, NextHistory;
    var cuts := ValidCutPoints(entries, start);
    CutPointsHead(entries, start, cuts);
    if |cuts| == 0 {
      return CutPoint(start, -1, false);
    }
    var cut := cuts[0];
    var reached := ScanTail(entries, start, target, count);
    if reached.Some? {
      cut := FirstCutPointAtOrAfter(cuts, reached.value);
      assert reached.value in cuts;
    }
    if cut <= start {
      cut := FirstCutPointAtOrAfter(cuts, start + 1);
      assert start in cuts && start < |entries|;
      var next := NextHistory(entries, start + 1);
      assert next < |entries| ==> next in cuts;
    }
    assert cut == CutIndex(entries, start, target, count);
    hide CutIndex;
    var turn := -1;
    if !IsTurnStart(entries[cut]) {
      turn := FindTurnStart(entries, cut, start);
    }
    r := CutPoint(cut, turn, turn >= 0);
  }
}
