/**
 * Whole runs of one branch: appends and planned compactions in any order (internal/compaction/plan.go and
 * internal/database/session_store.go together).
 */
module Compactions {
  import opened Text
  import opened Entries
  import opened Planner
  import opened BranchPlan
  import opened SessionContexts
  import Appendices
  import Checkpoint

  /**
   * One append to the branch. `facing` overrides the stored model-facing flag, as the metadata of an entry may;
   * `chosen` is the entry that an extension wants to be kept first.
   */
  datatype Event =
    | AppendMessage(id: string, message: Message, facing: Option<bool>, usage: Option<nat>)
    | AppendCustomMessage(id: string, content: string, display: bool, at: int)
    | AppendBranchSummary(id: string, summary: string, at: int)
    | AppendModelChange(id: string, provider: string, modelName: string, at: int)
    | AppendThinkingLevel(id: string, level: string, at: int)
    | AppendState(id: string, kind: EntryType, at: int)
    | Compact(id: string, target: int, chosen: Option<string>, summary: string, at: int)

  /** `summarized` records the SummarizedEntryIDs of every compaction made so far, oldest first. */
  datatype State = State(branch: seq<Entry>, summarized: seq<seq<string>>)

  function Bare(at: int): Message {
    Message(at, RoleNone, "", "", "", [])
  }

  /** The stored entry of an append (newEntryEntity and applyEntryMetadata). */
  function EntryOf(ev: Event): Entry
    requires !ev.Compact?
  {
    match ev
    case AppendMessage(id, message, facing, usage) =>
      var byDefault := message.role == RoleUser || message.role == RoleAssistant;
      Entry(id, MessageEntry, message.timestamp, message, "", "", "", usage,
        if facing.Some? then facing.value else byDefault, true)
    case AppendCustomMessage(id, content, display, at) =>
      Entry(
        id, CustomMessageEntry, at, Bare(at).(role := RoleCustom, content := content), "", "", "", None, display, true)
    case AppendBranchSummary(id, summary, at) =>
      Entry(id, BranchSummaryEntry, at, Bare(at), summary, "", "", None, true, true)
    case AppendModelChange(id, provider, modelName, at) =>
      Entry(
        id, ModelChangeEntry, at, Bare(at).(provider := provider, modelName := modelName), "", "", "", None, false,
        true)
    case AppendThinkingLevel(id, level, at) =>
      Entry(id, ThinkingLevelEntry, at, Bare(at), "", "", level, None, false, true)
    case AppendState(id, kind, at) =>
      var stored := if kind in {CustomEntry, LabelEntry, SessionInfoEntry} then kind else CustomEntry;
      Entry(id, stored, at, Bare(at), "", "", "", None, false, true)
  }

  function CompactionOf(ev: Event, plan: Plan): Entry
    requires ev.Compact?
  {
    Entry(ev.id, CompactionEntry, ev.at, Bare(ev.at), ev.summary, plan.firstKeptId, "", None, true, true)
  }

  /** What compactSessionWithPlan checks before it appends: the stripped summary is a conforming checkpoint. */
  ghost predicate Accepted(summary: string) {
    Checkpoint.Conforms(Checkpoint.Lines(Appendices.Strip(summary)))
  }

  lemma AcceptedIsVisible(summary: string)
    requires Accepted(summary)
    ensures TrimSpace(summary) != ""
  {
    Checkpoint.ConformingIsVisible(Appendices.Strip(summary));
    Appendices.StripKeepsBlank(summary);
  }

  /**
   * A used ID is refused by the primary key, a summary without the checkpoint structure by its validator, and a
   * compaction with nothing to do leaves the branch as it is.
   */
  ghost function Step(s: State, ev: Event, count: TokenCounter): State {
    if ev.id in Ids(s.branch) then s
    else if !ev.Compact? then s.(branch := s.branch + [EntryOf(ev)])
    else if !Accepted(ev.summary) then s
    else match PlanFor(s.branch, ev.target, ev.chosen, count)
      case NothingToDo(_) => s
      case Planned(plan) => State(s.branch + [CompactionOf(ev, plan)], s.summarized + [plan.summarizedIds])
  }

  ghost function Run(events: seq<Event>, count: TokenCounter): State {
    if events == [] then State([], [])
    else
      var n := |events| - 1;
      Step(Run(events[..n], count), events[n], count)
  }

  // ----- the invariant of every run -----

  /** An entry as the repository stores it. */
  predicate Stored(e: Entry) {
    && e.readable
    && match e.entryType
      case MessageEntry => true
      case CustomMessageEntry => true
      case BranchSummaryEntry => e.modelFacing && e.message == Bare(e.createdAt)
      case CompactionEntry => InContext(e) && e.message == Bare(e.createdAt)
      case _ => !e.modelFacing
  }

  /** The last entry, when it is a compaction, keeps history from an index k past the previous boundary. */
  predicate CutsAt(branch: seq<Entry>, k: nat) {
    && branch != []
    && var n := |branch| - 1;
      && k < n && Boundary(branch[..n]) < k
      && IsHistory(branch[k]) && branch[k].id == branch[n].firstKeptId
  }

  ghost predicate WellCut(branch: seq<Entry>) {
    branch == [] ||
    (var n := |branch| - 1;
      && WellCut(branch[..n])
      && Stored(branch[n])
      && (branch[n].entryType == CompactionEntry ==> exists k :: CutsAt(branch, k)))
  }

  function Flatten(parts: seq<seq<string>>): seq<string> {
    if parts == [] then [] else Flatten(parts[..|parts| - 1]) + parts[|parts| - 1]
  }

  ghost predicate Good(s: State) {
    && DistinctIds(s.branch)
    && WellCut(s.branch)
    && Flatten(s.summarized) == Ids(History(s.branch[..Boundary(s.branch)]))
  }

  lemma BoundaryAfterEntry(branch: seq<Entry>, e: Entry)
    requires e.entryType != CompactionEntry && DistinctIds(branch + [e]) && WellCut(branch)
    ensures Boundary(branch + [e]) == Boundary(branch)
  {
    var longer := branch + [e];
    assert longer[..|branch|] == branch;
    var last := LastCompaction(branch);
    if last.Some? {
      var k := BoundaryOf(branch, last.value);
      assert longer[k] == branch[k];
      IndexByIdDistinct(branch, k);
      IndexByIdDistinct(longer, k);
    }
  }

  /** The index at which a compaction of a well-cut branch cuts. */
  lemma {:induction false} BoundaryOf(branch: seq<Entry>, c: nat) returns (k: nat)
    requires WellCut(branch) && c < |branch| && branch[c].entryType == CompactionEntry
    ensures k < c && IsHistory(branch[k]) && branch[k].id == branch[c].firstKeptId
    decreases |branch|
  {
    var n := |branch| - 1;
    if c == n {
      k :| CutsAt(branch, k);
    } else {
      k := BoundaryOf(branch[..n], c);
    }
  }

  lemma BoundaryAfterCompaction(branch: seq<Entry>, e: Entry, k: nat)
    requires e.entryType == CompactionEntry && DistinctIds(branch + [e]) && CutsAt(branch + [e], k)
    ensures Boundary(branch + [e]) == k
  {
    var longer := branch + [e];
    assert longer[|branch|] == e;
    IndexByIdDistinct(longer, k);
  }

  lemma IdsConcat(a: seq<Entry>, b: seq<Entry>)
    ensures Ids(a + b) == Ids(a) + Ids(b)
  {
  }

  lemma FreshIdStaysDistinct(branch: seq<Entry>, e: Entry)
    requires DistinctIds(branch) && e.id !in Ids(branch)
    ensures DistinctIds(branch + [e])
  {
    forall i, j | 0 <= i < j < |branch + [e]| ensures (branch + [e])[i].id != (branch + [e])[j].id {
      if j == |branch| {
        assert Ids(branch)[i] == branch[i].id;
      }
    }
  }

  lemma AppendKeepsGood(s: State, e: Entry)
    requires Good(s) && e.id !in Ids(s.branch) && e.entryType != CompactionEntry && Stored(e)
    ensures Good(s.(branch := s.branch + [e]))
  {
    var longer := s.branch + [e];
    FreshIdStaysDistinct(s.branch, e);
    BoundaryAfterEntry(s.branch, e);
    assert longer[..|s.branch|] == s.branch;
    assert longer[..Boundary(longer)] == s.branch[..Boundary(s.branch)];
  }

  lemma LedgerGrows(branch: seq<Entry>, b: nat, k: nat)
    requires b <= k <= |branch|
    ensures Ids(History(branch[..b])) + Ids(History(branch[b..k])) == Ids(History(branch[..k]))
  {
    assert branch[..k] == branch[..b] + branch[b..k];
    HistoryConcat(branch[..b], branch[b..k]);
    IdsConcat(History(branch[..b]), History(branch[b..k]));
  }

  lemma WellCutAfterCompaction(branch: seq<Entry>, e: Entry, k: nat)
    requires WellCut(branch) && Stored(e) && k < |branch| && Boundary(branch) < k
    requires IsHistory(branch[k]) && branch[k].id == e.firstKeptId
    ensures WellCut(branch + [e]) && CutsAt(branch + [e], k)
  {
    var longer := branch + [e];
    assert longer[..|branch|] == branch && longer[k] == branch[k];
    assert CutsAt(longer, k);
  }

  lemma CompactionIsStored(ev: Event, plan: Plan)
    requires ev.Compact? && TrimSpace(ev.summary) != ""
    ensures var e := CompactionOf(ev, plan);
      Stored(e) && e.entryType == CompactionEntry && e.id == ev.id && e.firstKeptId == plan.firstKeptId
  {
  }

  lemma CompactKeepsGood(s: State, ev: Event, count: TokenCounter, plan: Plan)
    requires Good(s) && ev.Compact? && ev.id !in Ids(s.branch) && TrimSpace(ev.summary) != ""
    requires IsPlan(s.branch, ev.target, ev.chosen, count, plan) && KeepsHistory(s.branch, ev)
    ensures Good(State(s.branch + [CompactionOf(ev, plan)], s.summarized + [plan.summarizedIds]))
    ensures Boundary(s.branch + [CompactionOf(ev, plan)]) == plan.firstKeptIndex > Boundary(s.branch)
  {
    hide Boundary, History, WellCut, IsPlan, IsFacingMessage, Stored, CompactionOf;
    var e := CompactionOf(ev, plan);
    var k := plan.firstKeptIndex;
    CompactionIsStored(ev, plan);
    PlanAdvances(s.branch, ev.target, ev.chosen, count, plan);
    FreshIdStaysDistinct(s.branch, e);
    WellCutAfterCompaction(s.branch, e, k);
    BoundaryAfterCompaction(s.branch, e, k);
    LedgerGrows(s.branch, Boundary(s.branch), k);
    assert (s.branch + [e])[..k] == s.branch[..k];
    assert (s.summarized + [plan.summarizedIds])[..|s.summarized|] == s.summarized;
  }

  /** The extension does not choose a compaction to be kept first. */
  predicate KeepsHistory(branch: seq<Entry>, ev: Event) {
    ev.Compact? && ev.chosen.Some? && ev.chosen.value != "" ==>
      match IndexById(branch, ev.chosen.value)
      case None => true
      case Some(k) => branch[k].entryType != CompactionEntry
  }

  /** No extension ever chooses a compaction. Without extensions every run is like this. */
  ghost predicate Orderly(events: seq<Event>, count: TokenCounter) {
    events == [] ||
    (var n := |events| - 1; Orderly(events[..n], count) && KeepsHistory(Run(events[..n], count).branch, events[n]))
  }

  /** Every reachable branch is well cut, and what it has summarised is exactly the history before its boundary. */
  lemma {:induction false} RunsAreGood(events: seq<Event>, count: TokenCounter)
    requires Orderly(events, count)
    ensures Good(Run(events, count))
  {
    hide Accepted;
    if events != [] {
      var n := |events| - 1;
      RunsAreGood(events[..n], count);
      var s, ev := Run(events[..n], count), events[n];
      if ev.id !in Ids(s.branch) {
        if !ev.Compact? {
          AppendKeepsGood(s, EntryOf(ev));
        } else if Accepted(ev.summary) && PlanFor(s.branch, ev.target, ev.chosen, count).Planned? {
          AcceptedIsVisible(ev.summary);
          CompactKeepsGood(s, ev, count, PlanFor(s.branch, ev.target, ev.chosen, count).plan);
        }
      }
    }
  }

  // ----- tiling -----

  /** What the model is told of a branch: the last summary, then the history kept verbatim. */
  function SummaryShown(branch: seq<Entry>): seq<Message> {
    FacingMessages(LastSummary(branch))
  }

  lemma FacingOfEntry(e: Entry)
    requires Stored(e)
    ensures FacingMessages(EntryMessages(e)) == HistoryMessages(History([e]))
  {
    HistorySingle(e);
    if EntryMessages(e) != [] {
      FacingSingle(EntryMessages(e)[0]);
    }
  }

  lemma {:induction false} FacingOfEntries(entries: seq<Entry>)
    requires forall i | 0 <= i < |entries| :: Stored(entries[i])
    ensures FacingMessages(MessagesFrom(entries)) == HistoryMessages(History(entries))
  {
    if entries != [] {
      hide IsHistory, Stored, FacingMessages, EntryMessages;
      var n := |entries| - 1;
      FacingOfEntries(entries[..n]);
      FacingMessagesConcat(MessagesFrom(entries[..n]), EntryMessages(entries[n]));
      assert entries == entries[..n] + [entries[n]];
      HistoryConcat(entries[..n], [entries[n]]);
      HistoryMessagesConcat(History(entries[..n]), History([entries[n]]));
      FacingOfEntry(entries[n]);
    }
  }

  lemma {:induction false} WellCutIsStored(branch: seq<Entry>)
    requires WellCut(branch)
    ensures forall i | 0 <= i < |branch| :: Stored(branch[i])
  {
    if branch != [] {
      WellCutIsStored(branch[..|branch| - 1]);
    }
  }

  /** The context of every reachable branch can be built: no stored data fails to decode. */
  lemma ContextCanBeBuilt(events: seq<Event>, count: TokenCounter)
    requires Orderly(events, count)
    ensures FirstBroken(Run(events, count).branch).None?
  {
    hide Run;
    RunsAreGood(events, count);
    WellCutIsStored(Run(events, count).branch);
  }

  lemma ReplayStartIsBoundary(branch: seq<Entry>)
    requires WellCut(branch) && DistinctIds(branch)
    ensures ReplayStart(branch) == Boundary(branch)
  {
    var last := LastCompaction(branch);
    if last.Some? {
      var k := BoundaryOf(branch, last.value);
      assert branch[..last.value][k] == branch[k];
      IndexByIdDistinct(branch, k);
      IndexByIdDistinct(branch[..last.value], k);
    }
  }

  lemma ContextOfGoodBranch(branch: seq<Entry>)
    requires WellCut(branch) && DistinctIds(branch)
    ensures FacingMessages(ContextOf(branch).messages) ==
      SummaryShown(branch) + HistoryMessages(History(branch[Boundary(branch)..]))
  {
    hide ContextOf, Boundary, History, WellCut, ReplayStart, FacingMessages, MessagesFrom;
    var tail := branch[Boundary(branch)..];
    ContextIsLastSummaryAndTail(branch);
    ReplayStartIsBoundary(branch);
    WellCutIsStored(branch);
    FacingMessagesConcat(LastSummary(branch), MessagesFrom(tail));
    FacingOfEntries(tail);
  }

  /**
   * Tiling: the ID lists of all compactions, one after the other, followed by the IDs kept, are the IDs of the whole
   * history; and the context shows the last summary and then the kept history verbatim.
   */
  lemma HistoryIsTiled(events: seq<Event>, count: TokenCounter)
    requires Orderly(events, count)
    ensures var s := Run(events, count);
      && Flatten(s.summarized) + Ids(History(s.branch[Boundary(s.branch)..])) == Ids(History(s.branch))
      && FacingMessages(ContextOf(s.branch).messages) ==
        SummaryShown(s.branch) + HistoryMessages(History(s.branch[Boundary(s.branch)..]))
  {
    hide Run, ContextOf, FacingMessages, Boundary, History, HistoryMessages, WellCut;
    var s := Run(events, count);
    var b := Boundary(s.branch);
    RunsAreGood(events, count);
    ContextOfGoodBranch(s.branch);
    assert s.branch == s.branch[..b] + s.branch[b..];
    HistoryConcat(s.branch[..b], s.branch[b..]);
    IdsConcat(History(s.branch[..b]), History(s.branch[b..]));
  }

  predicate NoRepeats(ids: seq<string>) {
    forall i, j | 0 <= i < j < |ids| :: ids[i] != ids[j]
  }

  lemma {:induction false} HistoryIdsDistinct(branch: seq<Entry>)
    requires DistinctIds(branch)
    ensures NoRepeats(Ids(History(branch)))
  {
    if branch != [] {
      var n := |branch| - 1;
      HistoryIdsDistinct(branch[..n]);
      HistoryAppend(branch, 0, n);
      assert branch[0..n] == branch[..n] && branch[0..n + 1] == branch;
      forall e | e in History(branch[..n]) ensures e.id != branch[n].id {
        HistoryMembers(branch[..n], e);
      }
    }
  }

  lemma {:induction false} InFlatten(parts: seq<seq<string>>, id: string)
    ensures id in Flatten(parts) <==> exists j :: 0 <= j < |parts| && id in parts[j]
  {
    if parts != [] {
      InFlatten(parts[..|parts| - 1], id);
    }
  }

  lemma NoSharedId(a: seq<string>, b: seq<string>, id: string)
    requires NoRepeats(a + b) && id in a
    ensures id !in b
  {
    var x :| 0 <= x < |a| && a[x] == id;
    forall y | 0 <= y < |b| ensures b[y] != id {
      assert (a + b)[x] == a[x] && (a + b)[|a| + y] == b[y];
    }
  }

  lemma {:induction false} FlattenOnce(parts: seq<seq<string>>, id: string, j: nat, k: nat)
    requires NoRepeats(Flatten(parts)) && j < |parts| && k < |parts| && id in parts[j] && id in parts[k]
    ensures j == k
  {
    var n := |parts| - 1;
    var before := Flatten(parts[..n]);
    assert forall i | 0 <= i < |before| :: Flatten(parts)[i] == before[i];
    if j < n && k < n {
      FlattenOnce(parts[..n], id, j, k);
    } else {
      var other := if j == n then k else j;
      InFlatten(parts[..n], id);
      assert other < n ==> parts[..n][other] == parts[other];
      if id in before {
        NoSharedId(before, parts[n], id);
      }
    }
  }

  /** Where the context shows the history entry at index i: behind the summary and the kept history before it. */
  function PlaceInContext(branch: seq<Entry>, i: nat): nat
    requires Boundary(branch) <= i <= |branch|
  {
    |SummaryShown(branch)| + |History(branch[Boundary(branch)..i])|
  }

  /** The context shows the entry verbatim, at its own place. */
  ghost predicate IsShown(branch: seq<Entry>, i: nat)
    requires Boundary(branch) <= i < |branch| && IsHistory(branch[i])
  {
    var context := FacingMessages(ContextOf(branch).messages);
    PlaceInContext(branch, i) < |context| && context[PlaceInContext(branch, i)] == HistoryMessage(branch[i])
  }

  lemma KeptEntryIsShown(branch: seq<Entry>, i: nat)
    requires WellCut(branch) && DistinctIds(branch)
    requires Boundary(branch) <= i < |branch| && IsHistory(branch[i])
    ensures IsShown(branch, i)
  {
    hide ContextOf, FacingMessages, WellCut, Boundary, History, SummaryShown;
    var b, n := Boundary(branch), |branch|;
    ContextOfGoodBranch(branch);
    HistorySplit(branch, b, i, n);
    HistoryFromCut(branch, i, n);
    assert branch[b..n] == branch[b..];
  }

  /** The context is the summary and one message per kept history entry; nothing else is in it. */
  lemma ContextHoldsNothingElse(branch: seq<Entry>)
    requires WellCut(branch) && DistinctIds(branch)
    ensures |FacingMessages(ContextOf(branch).messages)| == PlaceInContext(branch, |branch|)
  {
    hide ContextOf, FacingMessages, WellCut, Boundary, History, SummaryShown;
    ContextOfGoodBranch(branch);
    assert branch[Boundary(branch)..|branch|] == branch[Boundary(branch)..];
  }

  /**
   * Exactly once: a history entry before the boundary was summarised by exactly one compaction; one from the boundary
   * on was summarised by none, and the rebuilt context shows it at its own place.
   */
  lemma SummarizedExactlyOnce(events: seq<Event>, count: TokenCounter, i: nat)
    requires Orderly(events, count) && i < |Run(events, count).branch| && IsHistory(Run(events, count).branch[i])
    ensures var s := Run(events, count);
      var id := s.branch[i].id;
      && (i < Boundary(s.branch) <==> exists j :: 0 <= j < |s.summarized| && id in s.summarized[j])
      && (forall j, k | 0 <= j < |s.summarized| && 0 <= k < |s.summarized| ::
        id in s.summarized[j] && id in s.summarized[k] ==> j == k)
      && (i >= Boundary(s.branch) <==> s.branch[i] in History(s.branch[Boundary(s.branch)..]))
      && (i >= Boundary(s.branch) ==> IsShown(s.branch, i))
      && |FacingMessages(ContextOf(s.branch).messages)| == PlaceInContext(s.branch, |s.branch|)
  {
    hide Run, Boundary, History, WellCut, IsHistory, Flatten, IsShown, PlaceInContext, ContextOf;
    var s := Run(events, count);
    var b := Boundary(s.branch);
    var id := s.branch[i].id;
    var before, after := s.branch[..b], s.branch[b..];
    RunsAreGood(events, count);
    ContextHoldsNothingElse(s.branch);
    if i >= b {
      KeptEntryIsShown(s.branch, i);
    }
    HistoryMembers(before, s.branch[i]);
    HistoryMembers(after, s.branch[i]);
    InFlatten(s.summarized, id);
    assert i < b ==> before[i] == s.branch[i];
    assert i >= b ==> after[i - b] == s.branch[i];
    if id in Flatten(s.summarized) {
      var x :| 0 <= x < |History(before)| && History(before)[x].id == id;
      HistoryMembers(before, History(before)[x]);
      var y :| 0 <= y < b && before[y] == History(before)[x];
      assert s.branch[y].id == s.branch[i].id;
    }
    if s.branch[i] in History(before) {
      var x :| 0 <= x < |History(before)| && History(before)[x] == s.branch[i];
      assert Ids(History(before))[x] == id;
    }
    HistoryIdsDistinct(before);
    forall j, k | 0 <= j < |s.summarized| && 0 <= k < |s.summarized| && id in s.summarized[j] && id in s.summarized[k]
      ensures j == k
    {
      FlattenOnce(s.summarized, id, j, k);
    }
  }

  lemma NextStep(events: seq<Event>, ev: Event, count: TokenCounter)
    ensures Run(events + [ev], count) == Step(Run(events, count), ev, count)
    ensures Orderly(events + [ev], count) <==> Orderly(events, count) && KeepsHistory(Run(events, count).branch, ev)
  {
    hide Step, KeepsHistory;
    assert (events + [ev])[..|events|] == events;
  }

  /** Successive cuts strictly increase; nothing but a compaction moves the boundary or summarises anything. */
  lemma CutsStrictlyIncrease(events: seq<Event>, ev: Event, count: TokenCounter)
    requires Orderly(events + [ev], count)
    ensures var s, t := Run(events, count), Run(events + [ev], count);
      if t.summarized != s.summarized
      then |t.summarized| == |s.summarized| + 1 && Boundary(s.branch) < Boundary(t.branch) < |s.branch|
      else Boundary(t.branch) == Boundary(s.branch)
  {
    hide Accepted;
    var s, t := Run(events, count), Run(events + [ev], count);
    NextStep(events, ev, count);
    RunsAreGood(events, count);
    if ev.id !in Ids(s.branch) {
      if !ev.Compact? {
        FreshIdStaysDistinct(s.branch, EntryOf(ev));
        BoundaryAfterEntry(s.branch, EntryOf(ev));
      } else if Accepted(ev.summary) && PlanFor(s.branch, ev.target, ev.chosen, count).Planned? {
        AcceptedIsVisible(ev.summary);
        var plan := PlanFor(s.branch, ev.target, ev.chosen, count).plan;
        CompactKeepsGood(s, ev, count, plan);
        PlanAdvances(s.branch, ev.target, ev.chosen, count, plan);
        assert t.summarized[|s.summarized|] == plan.summarizedIds;
      }
    }
  }

  // ----- the two reconstructions agree -----

  function NormalizeAll(entries: seq<Entry>): (r: seq<Entry>)
    ensures |r| == |entries| && forall i | 0 <= i < |r| :: r[i] == Normalize(entries[i])
  {
    seq(|entries|, i requires 0 <= i < |entries| => Normalize(entries[i]))
  }

  function SummaryEntries(branch: seq<Entry>): seq<Entry> {
    match LastCompaction(branch)
    case None => []
    case Some(c) => [Normalize(branch[c])]
  }

  /** Looking up the cut entry in the folded branch finds it where its history starts. */
  lemma CutInsideFold(head: seq<Entry>, left: seq<Entry>, right: seq<Entry>, id: string)
    requires right != [] && right[0].id == id
    requires forall i | 0 <= i < |head| :: head[i].id != id
    requires forall i | 0 <= i < |left| :: left[i].id != id
    ensures IndexById(head + (left + right), id) == Some(|head| + |left|)
    ensures (head + (left + right))[|head| + |left|..] == right
  {
    var all := head + (left + right);
    assert all[|head| + |left|] == right[0];
    assert forall i | 0 <= i < |head| + |left| :: all[i].id != id;
  }

  lemma NormalizeConcat(a: seq<Entry>, b: seq<Entry>)
    ensures NormalizeAll(a + b) == NormalizeAll(a) + NormalizeAll(b)
  {
  }

  /** The history of a range does not contain the entry that follows the range. */
  lemma HistoryBeforeCut(branch: seq<Entry>, b: nat, k: nat, i: nat)
    requires DistinctIds(branch) && b <= k < |branch| && i < |History(branch[b..k])|
    ensures History(branch[b..k])[i].id != branch[k].id
  {
    var e := History(branch[b..k])[i];
    HistoryMembers(branch[b..k], e);
    var x :| 0 <= x < k - b && branch[b..k][x] == e;
    assert branch[b + x] == e;
  }

  lemma HistoryFromCut(branch: seq<Entry>, k: nat, n: nat)
    requires k < n <= |branch| && IsHistory(branch[k])
    ensures History(branch[k..n]) != [] && History(branch[k..n])[0] == branch[k]
  {
    assert branch[k..n][0] == branch[k];
  }

  /** Folding a compaction into its predecessor's closed form drops the old summary and the history before its cut. */
  lemma FoldAtCut(branch: seq<Entry>, b: nat, k: nat, n: nat, head: seq<Entry>, e: Entry)
    requires DistinctIds(branch) && b <= k < n <= |branch| && IsHistory(branch[k])
    requires e.entryType == CompactionEntry && e.firstKeptId == branch[k].id
    requires forall i | 0 <= i < |head| :: head[i].id != branch[k].id
    ensures Fold(head + NormalizeAll(History(branch[b..n])), e) == [e] + NormalizeAll(History(branch[k..n]))
  {
    hide IsHistory, History, LastCompaction;
    var left, right := NormalizeAll(History(branch[b..k])), NormalizeAll(History(branch[k..n]));
    HistorySplit(branch, b, k, n);
    NormalizeConcat(History(branch[b..k]), History(branch[k..n]));
    HistoryFromCut(branch, k, n);
    forall i | 0 <= i < |left| ensures left[i].id != branch[k].id {
      HistoryBeforeCut(branch, b, k, i);
    }
    CutInsideFold(head, left, right, branch[k].id);
    assert head + NormalizeAll(History(branch[b..n])) == head + (left + right);
  }

  lemma EffectiveStep(facing: seq<Entry>, e: Entry)
    ensures Effective(facing + [e]) == Fold(Effective(facing), e)
  {
    assert (facing + [e])[..|facing|] == facing;
  }

  /** Folding one more entry of a branch. */
  lemma EffectiveAfter(before: seq<Entry>, e: Entry)
    ensures var folded := Effective(ModelFacingEntries(before));
      Effective(ModelFacingEntries(before + [e])) == if InContext(e) then Fold(folded, Normalize(e)) else folded
  {
    assert (before + [e])[..|before|] == before;
    EffectiveStep(ModelFacingEntries(before), Normalize(e));
    assert ModelFacingEntries(before) + [] == ModelFacingEntries(before);
  }

  /** The last compaction of a branch, then its history from index b on. */
  function FoldedFrom(branch: seq<Entry>, b: nat): seq<Entry>
    requires b <= |branch|
  {
    SummaryEntries(branch) + NormalizeAll(History(branch[b..]))
  }

  lemma SummaryEntriesAfter(before: seq<Entry>, e: Entry)
    ensures SummaryEntries(before + [e]) ==
      if e.entryType == CompactionEntry then [Normalize(e)] else SummaryEntries(before)
  {
    assert (before + [e])[..|before|] == before;
  }

  lemma HistoryAfter(before: seq<Entry>, e: Entry, b: nat)
    requires b <= |before|
    ensures History((before + [e])[b..]) == History(before[b..]) + (if IsHistory(e) then [e] else [])
  {
    assert (before + [e])[b..] == before[b..] + [e];
    HistoryConcat(before[b..], [e]);
    HistorySingle(e);
  }

  lemma FoldedFromAfterEntry(before: seq<Entry>, e: Entry, b: nat)
    requires b <= |before| && e.entryType != CompactionEntry
    ensures FoldedFrom(before + [e], b) ==
      if InContext(e) then Fold(FoldedFrom(before, b), Normalize(e)) else FoldedFrom(before, b)
  {
    hide IsFacingMessage, History, SummaryEntries;
    SummaryEntriesAfter(before, e);
    HistoryAfter(before, e, b);
    if IsHistory(e) {
      NormalizeConcat(History(before[b..]), [e]);
    }
  }

  lemma HeadLacksHistory(before: seq<Entry>, k: nat)
    requires DistinctIds(before) && k < |before| && IsHistory(before[k])
    ensures forall i | 0 <= i < |SummaryEntries(before)| :: SummaryEntries(before)[i].id != before[k].id
  {
    hide IsFacingMessage;
    var last := LastCompaction(before);
    if last.Some? {
      assert last.value != k;
      OtherId(before, last.value, k);
    }
  }

  lemma FoldedFromAfterCompaction(before: seq<Entry>, e: Entry, b: nat, k: nat)
    requires DistinctIds(before) && e.entryType == CompactionEntry
    requires b <= k < |before| && IsHistory(before[k]) && before[k].id == e.firstKeptId
    ensures FoldedFrom(before + [e], k) == Fold(FoldedFrom(before, b), Normalize(e))
  {
    hide IsFacingMessage, History, IndexById, Fold, SummaryEntries, NormalizeAll;
    var head := SummaryEntries(before);
    HeadLacksHistory(before, k);
    FoldAtCut(before, b, k, |before|, head, Normalize(e));
    assert before[b..|before|] == before[b..] && before[k..|before|] == before[k..];
    SummaryEntriesAfter(before, e);
    HistoryAfter(before, e, k);
  }

  /** The incremental fold has a closed form: the last compaction, then the history from its cut on. */
  lemma {:induction false} EffectiveIsSummaryAndTail(branch: seq<Entry>)
    requires WellCut(branch) && DistinctIds(branch)
    ensures Effective(ModelFacingEntries(branch)) == FoldedFrom(branch, Boundary(branch))
  {
    if branch != [] {
      hide IsHistory, History, Boundary, Effective, ModelFacingEntries, Stored, FoldedFrom;
      var n := |branch| - 1;
      var before, e := branch[..n], branch[n];
      assert branch == before + [e];
      EffectiveIsSummaryAndTail(before);
      EffectiveAfter(before, e);
      if e.entryType == CompactionEntry {
        var k: nat :| CutsAt(branch, k);
        BoundaryAfterCompaction(before, e, k);
        assert before[k] == branch[k];
        FoldedFromAfterCompaction(before, e, Boundary(before), k);
      } else {
        BoundaryAfterEntry(before, e);
        FoldedFromAfterEntry(before, e, Boundary(before));
      }
    }
  }

  lemma {:induction false} ReplayOfHistory(entries: seq<Entry>)
    requires forall i | 0 <= i < |entries| :: IsHistory(entries[i])
    ensures ReplayedMessages(NormalizeAll(entries)) == HistoryMessages(entries)
  {
    hide IsFacingMessage, FacingMessage;
    if entries != [] {
      var n := |entries| - 1;
      ReplayOfHistory(entries[..n]);
      assert NormalizeAll(entries)[..n] == NormalizeAll(entries[..n]);
      assert CandidateMessage(Normalize(entries[n])) == CandidateMessage(entries[n]);
    }
  }

  lemma {:induction false} ReplayConcat(a: seq<Entry>, b: seq<Entry>)
    ensures ReplayedMessages(a + b) == ReplayedMessages(a) + ReplayedMessages(b)
  {
    if b == [] {
      assert a + b == a;
    } else {
      assert (a + b)[..|a + b| - 1] == a + b[..|b| - 1];
      ReplayConcat(a, b[..|b| - 1]);
    }
  }

  lemma ReplayOfSummary(branch: seq<Entry>)
    requires WellCut(branch)
    ensures ReplayedMessages(SummaryEntries(branch)) == SummaryShown(branch)
  {
    var last := LastCompaction(branch);
    if last.Some? {
      var e := branch[last.value];
      WellCutIsStored(branch);
      assert CandidateMessage(Normalize(e)) == CandidateMessage(e) == SummaryMessage(e);
      FacingSingle(SummaryMessage(e));
      assert [Normalize(e)][..0] == [] && InContext(Normalize(e));
    }
  }

  /** The planner's fold and the store's context send the model the same messages. */
  ghost predicate Agree(branch: seq<Entry>) {
    ReplayedMessages(Effective(ModelFacingEntries(branch))) == FacingMessages(ContextOf(branch).messages)
  }

  lemma GoodBranchesAgree(branch: seq<Entry>)
    requires WellCut(branch) && DistinctIds(branch)
    ensures Agree(branch)
  {
    hide ContextOf, Boundary, History, WellCut, Effective, ModelFacingEntries, FacingMessages, ReplayedMessages;
    var tail := History(branch[Boundary(branch)..]);
    EffectiveIsSummaryAndTail(branch);
    ReplayConcat(SummaryEntries(branch), NormalizeAll(tail));
    ReplayOfHistory(tail);
    ReplayOfSummary(branch);
    ContextOfGoodBranch(branch);
  }

  /**
   * Refinement: on every reachable branch the incremental fold of the planner and the context builder of the store send
   * the model the same messages.
   */
  lemma ReconstructionsAgree(events: seq<Event>, count: TokenCounter)
    requires Orderly(events, count)
    ensures var branch := Run(events, count).branch;
      && Agree(branch)
      && TokensOfBranch(branch, count) == MessageTokens(FacingMessages(ContextOf(branch).messages), count)
  {
    hide Run, ContextOf, WellCut, Effective, ModelFacingEntries, FacingMessages, ReplayedMessages;
    var branch := Run(events, count).branch;
    RunsAreGood(events, count);
    GoodBranchesAgree(branch);
  }

  // ----- when an extension chooses a compaction -----

  lemma {:induction false} HistoryShrinks(branch: seq<Entry>, b: nat, k: nat)
    requires b <= k <= |branch|
    ensures |History(branch[k..])| <= |History(branch[b..])|
  {
    HistorySplit(branch, b, k, |branch|);
    assert branch[b..|branch|] == branch[b..] && branch[k..|branch|] == branch[k..];
  }

  /** A plan is only made when the last entry of the context is history. */
  lemma HistoryComesLast(branch: seq<Entry>, target: int, count: TokenCounter, k: nat)
    requires PlanOf(branch, target, count).Planned? && k < |branch|
    requires InContext(branch[k]) && branch[k].entryType == CompactionEntry
    ensures History(branch[k..]) != []
  {
    hide IsFacingMessage, PlanAt, CutPointOf, NextHistory, Boundary;
    var l := LastInContext(branch).value;
    assert branch[k..][l - k] == branch[l];
    HistoryMembers(branch[k..], branch[l]);
  }

  /** The store shows the new summary and the history from the chosen entry on. */
  lemma ContextFrom(before: seq<Entry>, e: Entry, k: nat)
    requires WellCut(before) && DistinctIds(before) && Stored(e) && e.entryType == CompactionEntry
    requires k < |before| && before[k].id == e.firstKeptId
    ensures |FacingMessages(ContextOf(before + [e]).messages)| == 1 + |History(before[k..])|
  {
    hide ContextOf, History, WellCut, FacingMessages, MessagesFrom, IsFacingMessage;
    var longer := before + [e];
    assert longer[..|before|] == before && longer[k..] == before[k..] + [e];
    ContextIsLastSummaryAndTail(longer);
    IndexByIdDistinct(before, k);
    WellCutIsStored(before);
    FacingMessagesConcat(LastSummary(longer), MessagesFrom(longer[k..]));
    FacingOfEntries(longer[k..]);
    HistoryAfter(before, e, k);
    FacingSingle(SummaryMessage(e));
    assert IsFacingMessage(SummaryMessage(e)) by { StoredCompactionIsFacing(e); }
  }

  lemma StoredCompactionIsFacing(e: Entry)
    requires Stored(e) && e.entryType == CompactionEntry
    ensures IsFacingMessage(SummaryMessage(e)) && InContext(e) && InContext(Normalize(e))
  {
    assert CandidateMessage(e) == SummaryMessage(e) == CandidateMessage(Normalize(e));
  }

  /** The fold finds the last compaction at its head and then keeps everything, and an older one not at all. */
  lemma FoldFromCompaction(before: seq<Entry>, e: Entry, k: nat)
    requires WellCut(before) && DistinctIds(before) && Stored(e) && e.entryType == CompactionEntry
    requires k < |before| && before[k].id == e.firstKeptId && before[k].entryType == CompactionEntry
    ensures |ReplayedMessages(Effective(ModelFacingEntries(before + [e])))| ==
      if LastCompaction(before) == Some(k) then 2 + |History(before[Boundary(before)..])| else 1
  {
    hide Effective, ModelFacingEntries, Boundary, History, WellCut, ReplayedMessages, IsFacingMessage;
    var folded := FoldedFrom(before, Boundary(before));
    EffectiveIsSummaryAndTail(before);
    EffectiveAfter(before, e);
    StoredCompactionIsFacing(e);
    FoldedIds(before, Boundary(before), k);
    if LastCompaction(before) == Some(k) {
      assert folded[0..] == folded;
      ReplayedCount(before, Boundary(before));
      ReplayConcat([Normalize(e)], folded);
    }
    ReplaySingle(Normalize(e));
  }

  lemma ReplaySingle(e: Entry)
    ensures |ReplayedMessages([e])| == if InContext(e) then 1 else 0
  {
    assert [e][..0] == [];
  }

  lemma HistoryLacksCompaction(before: seq<Entry>, b: nat, k: nat, i: nat)
    requires DistinctIds(before) && b <= |before| && k < |before| && before[k].entryType == CompactionEntry
    requires i < |History(before[b..])|
    ensures History(before[b..])[i].id != before[k].id
  {
    hide History, IsFacingMessage;
    var e := History(before[b..])[i];
    HistoryMembers(before[b..], e);
    var x :| 0 <= x < |before| - b && before[b..][x] == e;
    assert before[b + x] == e;
  }

  lemma FoldedIds(before: seq<Entry>, b: nat, k: nat)
    requires DistinctIds(before) && b <= |before| && k < |before| && before[k].entryType == CompactionEntry
    ensures IndexById(FoldedFrom(before, b), before[k].id) ==
      if LastCompaction(before) == Some(k) then Some(0) else None
  {
    hide History, IsHistory, CandidateMessage, LastCompaction, DistinctIds, SummaryEntries, NormalizeAll, IndexById;
    var tail := History(before[b..]);
    forall i | 0 <= i < |tail| ensures tail[i].id != before[k].id {
      HistoryLacksCompaction(before, b, k, i);
    }
    var c := LastCompaction(before).value;
    SummaryOfLast(before);
    if c != k {
      OtherId(before, c, k);
    }
    NotInTail(before[c], tail, before[k].id);
  }

  lemma SummaryOfLast(before: seq<Entry>)
    requires LastCompaction(before).Some?
    ensures SummaryEntries(before) == [Normalize(before[LastCompaction(before).value])]
  {
  }

  lemma OtherId(branch: seq<Entry>, c: nat, k: nat)
    requires DistinctIds(branch) && c < |branch| && k < |branch| && c != k
    ensures branch[c].id != branch[k].id
  {
  }

  lemma NotInTail(first: Entry, tail: seq<Entry>, id: string)
    requires forall i | 0 <= i < |tail| :: tail[i].id != id
    ensures IndexById([Normalize(first)] + NormalizeAll(tail), id) == if first.id == id then Some(0) else None
  {
    hide CandidateMessage;
    assert ([Normalize(first)] + NormalizeAll(tail))[1..] == NormalizeAll(tail);
  }

  lemma ReplayedCount(before: seq<Entry>, b: nat)
    requires WellCut(before) && b <= |before| && LastCompaction(before).Some?
    ensures |ReplayedMessages(FoldedFrom(before, b))| == 1 + |History(before[b..])|
  {
    hide History, WellCut, ReplayedMessages, IsFacingMessage;
    ReplayConcat(SummaryEntries(before), NormalizeAll(History(before[b..])));
    ReplayOfHistory(History(before[b..]));
    WellCutIsStored(before);
    var e := before[LastCompaction(before).value];
    StoredCompactionIsFacing(e);
    ReplaySingle(Normalize(e));
  }

  /** With a compaction chosen, the two reconstructions differ in length. */
  lemma KeptCompactionDisagrees(
    before: seq<Entry>, target: int, chosen: Option<string>, count: TokenCounter, plan: Plan, e: Entry)
    requires WellCut(before) && DistinctIds(before) && IsPlan(before, target, chosen, count, plan)
    requires Stored(e) && e.entryType == CompactionEntry && e.firstKeptId == plan.firstKeptId
    requires before[plan.firstKeptIndex].entryType == CompactionEntry
    ensures !Agree(before + [e])
  {
    hide Effective, ModelFacingEntries, Boundary, History, WellCut, ReplayedMessages, IsFacingMessage, ContextOf,
      FacingMessages, Stored, PlanFrom, PlanOf;
    var k := plan.firstKeptIndex;
    PlanAdvances(before, target, chosen, count, plan);
    ContextFrom(before, e, k);
    FoldFromCompaction(before, e, k);
    HistoryComesLast(before, target, count, k);
    HistoryShrinks(before, Boundary(before), k);
  }

  lemma CompactStep(s: State, ev: Event, count: TokenCounter, plan: Plan)
    requires ev.Compact? && ev.id !in Ids(s.branch) && Accepted(ev.summary)
    requires IsPlan(s.branch, ev.target, ev.chosen, count, plan)
    ensures Step(s, ev, count).branch == s.branch + [CompactionOf(ev, plan)]
    ensures var e := CompactionOf(ev, plan);
      Stored(e) && e.entryType == CompactionEntry && e.firstKeptId == plan.firstKeptId
  {
    hide PlanFor, Accepted, CompactionOf, Stored;
    AcceptedIsVisible(ev.summary);
    CompactionIsStored(ev, plan);
  }

  /**
   * After any run in which no extension chose a compaction, a further compaction leaves the two reconstructions
   * agreeing exactly when the entry that it keeps first is not itself a compaction.
   */
  lemma AgreeExactlyUnlessCompactionKept(events: seq<Event>, ev: Event, count: TokenCounter)
    requires Orderly(events, count) && ev.Compact? && ev.id !in Ids(Run(events, count).branch) && Accepted(ev.summary)
    requires PlanFor(Run(events, count).branch, ev.target, ev.chosen, count).Planned?
    ensures Agree(Run(events + [ev], count).branch) <==> KeepsHistory(Run(events, count).branch, ev)
  {
    hide Run, Agree, PlanFor, WellCut, Step, Accepted, Stored, IsFacingMessage, Orderly;
    var s := Run(events, count);
    var plan := PlanFor(s.branch, ev.target, ev.chosen, count).plan;
    RunsAreGood(events, count);
    NextStep(events, ev, count);
    CompactStep(s, ev, count, plan);
    PlanAdvances(s.branch, ev.target, ev.chosen, count, plan);
    if KeepsHistory(s.branch, ev) {
      ReconstructionsAgree(events + [ev], count);
    } else {
      ChosenIsKept(s.branch, ev, count, plan);
      KeptCompactionDisagrees(s.branch, ev.target, ev.chosen, count, plan, CompactionOf(ev, plan));
    }
  }

  lemma ChosenIsKept(branch: seq<Entry>, ev: Event, count: TokenCounter, plan: Plan)
    requires ev.Compact? && IsPlan(branch, ev.target, ev.chosen, count, plan) && !KeepsHistory(branch, ev)
    ensures plan.firstKeptIndex < |branch| && branch[plan.firstKeptIndex].entryType == CompactionEntry
  {
    hide PlanOf, PlanAt, ChosenCut, Boundary, NextHistory, IsFacingMessage;
    var k := IndexById(branch, ev.chosen.value).value;
    PlanIndex(branch, Boundary(branch), ChosenCut(branch, Boundary(branch), k), count);
  }
}
