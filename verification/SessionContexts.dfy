/** Rebuilding the model's context from a branch (BuildContext in internal/database/session_store.go). */
module SessionContexts {
  import opened Text
  import opened Entries
  import opened Planner

  datatype UsageAnchor = UsageAnchor(
    entryId: string, messageIndex: nat, provider: string, modelName: string, usage: nat)

  datatype ContextState = ContextState(
    messages: seq<Message>,
    anchor: Option<UsageAnchor>,
    provider: string,
    modelName: string,
    thinkingLevel: string
  )

  const EMPTY := ContextState([], None, "", "", "")

  function SummaryMessage(e: Entry): Message {
    Message(e.createdAt, RoleCompactionSummary, e.summary, "", "", [])
  }

  function BranchSummaryMessage(e: Entry): Message {
    Message(e.createdAt, RoleBranchSummary, e.summary, "", "", [])
  }

  /** The messages one entry contributes; a compaction contributes none to the tail of a later one. */
  function EntryMessages(e: Entry): seq<Message> {
    match e.entryType
    case MessageEntry => if e.modelFacing then [e.message] else []
    case CustomMessageEntry => if e.modelFacing then [e.message] else []
    case BranchSummaryEntry => [BranchSummaryMessage(e)]
    case _ => []
  }

  function MessagesFrom(entries: seq<Entry>): seq<Message> {
    if entries == [] then []
    else
      var n := |entries| - 1;
      MessagesFrom(entries[..n]) + EntryMessages(entries[n])
  }

  function AnchorAfter(s: ContextState, e: Entry): Option<UsageAnchor> {
    if e.entryType == MessageEntry && e.modelFacing && e.message.role == RoleAssistant && e.usage.Some? then
      Some(UsageAnchor(e.id, |s.messages|, e.message.provider, e.message.modelName, e.usage.value))
    else s.anchor
  }

  function ApplyEntry(s: ContextState, e: Entry): ContextState {
    match e.entryType
    case ModelChangeEntry => s.(provider := e.message.provider, modelName := e.message.modelName)
    case ThinkingLevelEntry => s.(thinkingLevel := e.thinkingLevel)
    case _ => s.(messages := s.messages + EntryMessages(e), anchor := AnchorAfter(s, e))
  }

  /** Where the retained tail of a compaction at the end of `before` starts. */
  function TailStart(before: seq<Entry>, compaction: Entry): (r: nat)
    ensures r <= |before|
  {
    match IndexById(before, compaction.firstKeptId)
    case None => |before|
    case Some(k) => k
  }

  function ApplyCompaction(s: ContextState, before: seq<Entry>, compaction: Entry): ContextState {
    s.(messages := [SummaryMessage(compaction)] + MessagesFrom(before[TailStart(before, compaction)..]), anchor := None)
  }

  function ContextOf(branch: seq<Entry>): ContextState {
    if branch == [] then EMPTY
    else
      var n := |branch| - 1;
      var s := ContextOf(branch[..n]);
      if branch[n].entryType == CompactionEntry then ApplyCompaction(s, branch[..n], branch[n])
      else ApplyEntry(s, branch[n])
  }

  /** The context depends on the entry's data: the usage of an assistant message, or the thinking level. */
  predicate NeedsData(e: Entry) {
    || e.entryType == ThinkingLevelEntry
    || (e.entryType == MessageEntry && e.modelFacing && e.message.role == RoleAssistant)
  }

  predicate Broken(e: Entry) {
    NeedsData(e) && !e.readable
  }

  /** The first entry that cannot be applied. The tail of a compaction is replayed without its data. */
  function FirstBroken(branch: seq<Entry>): (r: Option<nat>)
    ensures r.Some? ==> r.value < |branch| && Broken(branch[r.value])
    ensures forall i | 0 <= i < (if r.Some? then r.value else |branch|) :: !Broken(branch[i])
  {
    if branch == [] then None
    else
      var n := |branch| - 1;
      var first := FirstBroken(branch[..n]);
      if first.None? && Broken(branch[n]) then Some(n) else first
  }

  datatype ContextResult = Built(context: SessionContext) | LeafRequired | Undecodable(index: nat)

  class SessionContext {
    var messages: seq<Message>
    var anchor: Option<UsageAnchor>
    var provider: string
    var modelName: string
    var thinkingLevel: string

    ghost function State(): ContextState
      reads this
    {
      ContextState(messages, anchor, provider, modelName, thinkingLevel)
    }

    constructor ()
      ensures State() == EMPTY
    {
      messages, anchor, provider, modelName, thinkingLevel := [], None, "", "", "";
    }

    method AppendModelFacingMessage(e: Entry) returns (failed: bool)
      requires e.entryType in {MessageEntry, CustomMessageEntry}
      modifies this
      ensures failed <==> Broken(e)
      ensures !failed ==> State() == ApplyEntry(old(State()), e)
    {
      failed := false;
      if e.modelFacing {
        messages := messages + [e.message];
        failed := UpdateUsageAnchor(e, |messages| - 1);
      }
    }

    method UpdateUsageAnchor(e: Entry, messageIndex: nat) returns (failed: bool)
      requires e.modelFacing
      modifies this`anchor
      ensures failed <==> e.entryType == MessageEntry && Broken(e)
      ensures anchor ==
        if HasAnchor(e) && !failed then
          Some(UsageAnchor(e.id, messageIndex, e.message.provider, e.message.modelName, e.usage.value))
        else old(anchor)
    {
      if e.entryType != MessageEntry || e.message.role != RoleAssistant {
        return false;
      }
      if !e.readable {
        return true;
      }
      if e.usage.Some? {
        anchor := Some(UsageAnchor(e.id, messageIndex, e.message.provider, e.message.modelName, e.usage.value));
      }
      failed := false;
    }

    method AppendBranchSummary(e: Entry)
      modifies this`messages
      ensures messages == old(messages) + [BranchSummaryMessage(e)]
    {
      messages := messages + [BranchSummaryMessage(e)];
    }

    method ApplyEntryToContext(e: Entry) returns (failed: bool)
      requires e.entryType != CompactionEntry
      modifies this
      ensures failed <==> Broken(e)
      ensures !failed ==> State() == ApplyEntry(old(State()), e)
    {
      failed := false;
      match e.entryType {
        case MessageEntry => failed := AppendModelFacingMessage(e);
        case CustomMessageEntry => failed := AppendModelFacingMessage(e);
        case BranchSummaryEntry => AppendBranchSummary(e);
        case ModelChangeEntry =>
          provider := e.message.provider;
          modelName := e.message.modelName;
        case ThinkingLevelEntry =>
          if !e.readable {
            return true;
          }
          thinkingLevel := e.thinkingLevel;
        case _ =>
      }
    }

    method AppendRetainedTailEntry(e: Entry)
      modifies this`messages
      ensures messages == old(messages) + EntryMessages(e)
    {
      match e.entryType {
        case MessageEntry => if e.modelFacing { messages := messages + [e.message]; }
        case CustomMessageEntry => if e.modelFacing { messages := messages + [e.message]; }
        case BranchSummaryEntry => AppendBranchSummary(e);
        case _ =>
      }
    }

    method AppendRetainedTail(branch: seq<Entry>, start: nat, end: nat)
      requires start <= end <= |branch|
      modifies this`messages
      ensures messages == old(messages) + MessagesFrom(branch[start..end])
    {
      hide EntryMessages, MessagesFrom;
      NoMessages(branch, start);
      for index := start to end
        invariant messages == old(messages) + MessagesFrom(branch[start..index])
      {
        MessagesFromNext(branch, start, index);
        AppendRetainedTailEntry(branch[index]);
      }
    }

    method ApplyCompactionWithTail(branch: seq<Entry>, compactionIndex: nat)
      requires compactionIndex < |branch|
      modifies this`messages, this`anchor
      ensures State() == ApplyCompaction(old(State()), branch[..compactionIndex], branch[compactionIndex])
    {
      var compaction := branch[compactionIndex];
      messages := [SummaryMessage(compaction)];
      anchor := None;
      var firstKept := FirstKeptIndex(branch, compactionIndex);
      AppendRetainedTail(branch, firstKept, compactionIndex);
      assert branch[..compactionIndex][firstKept..] == branch[firstKept..compactionIndex];
    }
  }

  lemma NoMessages(branch: seq<Entry>, start: nat)
    requires start <= |branch|
    ensures MessagesFrom(branch[start..start]) == []
  {
  }

  lemma MessagesFromNext(branch: seq<Entry>, start: nat, index: nat)
    requires start <= index < |branch|
    ensures MessagesFrom(branch[start..index + 1]) == MessagesFrom(branch[start..index]) + EntryMessages(branch[index])
  {
    assert branch[start..index + 1][..index - start] == branch[start..index];
  }

  method FirstKeptIndex(branch: seq<Entry>, compactionIndex: nat) returns (firstKept: nat)
    requires compactionIndex < |branch|
    ensures firstKept == TailStart(branch[..compactionIndex], branch[compactionIndex])
  {
    ghost var before := branch[..compactionIndex];
    firstKept := 0;
    while firstKept < compactionIndex
      invariant 0 <= firstKept <= compactionIndex
      invariant forall i | 0 <= i < firstKept :: before[i].id != branch[compactionIndex].firstKeptId
    {
      if branch[firstKept].id == branch[compactionIndex].firstKeptId {
        assert before[firstKept].id == branch[compactionIndex].firstKeptId;
        return;
      }
      firstKept := firstKept + 1;
    }
  }

  lemma CompactionNeedsNoData(e: Entry)
    requires e.entryType == CompactionEntry
    ensures !Broken(e)
  {
  }

  /** `branch` is what the database holds up to the leaf. */
  method BuildContext(leafId: string, branch: seq<Entry>) returns (r: ContextResult)
    ensures r.LeafRequired? <==> TrimSpace(leafId) == ""
    ensures TrimSpace(leafId) != "" ==> match FirstBroken(branch)
      case Some(i) => r == Undecodable(i)
      case None => r.Built? && fresh(r.context) && r.context.State() == ContextOf(branch)
  {
    hide TrimSpace, Broken, FirstBroken, ApplyEntry, ApplyCompaction;
    if TrimSpace(leafId) == "" {
      return LeafRequired;
    }
    var context := new SessionContext();
    for index := 0 to |branch|
      invariant fresh(context) && context.State() == ContextOf(branch[..index])
      invariant forall i | 0 <= i < index :: !Broken(branch[i])
    {
      assert branch[..index + 1][..index] == branch[..index];
      if branch[index].entryType == CompactionEntry {
        CompactionNeedsNoData(branch[index]);
        context.ApplyCompactionWithTail(branch, index);
      } else {
        var failed := context.ApplyEntryToContext(branch[index]);
        if failed {
          return Undecodable(index);
        }
      }
    }
    assert branch[..|branch|] == branch;
    r := Built(context);
  }

  // ----- closed forms -----

  lemma {:induction false} MessagesFromConcat(a: seq<Entry>, b: seq<Entry>)
    ensures MessagesFrom(a + b) == MessagesFrom(a) + MessagesFrom(b)
  {
    if b == [] {
      assert a + b == a;
    } else {
      assert (a + b)[..|a + b| - 1] == a + b[..|b| - 1];
      MessagesFromConcat(a, b[..|b| - 1]);
    }
  }

  /** The index from which entries are replayed after the last compaction of a branch. */
  function ReplayStart(branch: seq<Entry>): (r: nat)
    ensures r <= |branch|
  {
    match LastCompaction(branch)
    case None => 0
    case Some(c) => TailStart(branch[..c], branch[c])
  }

  function LastSummary(branch: seq<Entry>): seq<Message> {
    match LastCompaction(branch)
    case None => []
    case Some(c) => [SummaryMessage(branch[c])]
  }

  lemma ReplayAfterEntry(branch: seq<Entry>, n: nat)
    requires |branch| == n + 1 && branch[n].entryType != CompactionEntry
    ensures ReplayStart(branch) == ReplayStart(branch[..n]) && LastSummary(branch) == LastSummary(branch[..n])
  {
    var last := LastCompaction(branch[..n]);
    assert LastCompaction(branch) == last;
    if last.Some? {
      assert branch[..n][..last.value] == branch[..last.value];
    }
  }

  lemma MessagesFromAppend(branch: seq<Entry>, n: nat, start: nat)
    requires |branch| == n + 1 && start <= n
    ensures MessagesFrom(branch[start..]) == MessagesFrom(branch[..n][start..]) + EntryMessages(branch[n])
  {
    assert branch[start..][..n - start] == branch[..n][start..];
  }

  /**
   * Only the last compaction matters: whatever earlier compactions did, the context is its summary, then the entries
   * from its first kept entry on, the later ones included.
   */
  lemma {:induction false} ContextIsLastSummaryAndTail(branch: seq<Entry>)
    ensures ContextOf(branch).messages == LastSummary(branch) + MessagesFrom(branch[ReplayStart(branch)..])
  {
    if branch != [] {
      hide ReplayStart, LastSummary, MessagesFrom, EntryMessages, ApplyEntry, ApplyCompaction;
      var n := |branch| - 1;
      var before, e := branch[..n], branch[n];
      ContextIsLastSummaryAndTail(before);
      if e.entryType == CompactionEntry {
        ReplayAfterCompaction(branch, n, ContextOf(before));
      } else {
        ReplayAfterEntry(branch, n);
        AppliedMessages(ContextOf(before), e);
        MessagesFromAppend(branch, n, ReplayStart(branch));
      }
    }
  }

  lemma AppliedMessages(s: ContextState, e: Entry)
    requires e.entryType != CompactionEntry
    ensures ApplyEntry(s, e).messages == s.messages + EntryMessages(e)
  {
  }

  lemma ReplayAfterCompaction(branch: seq<Entry>, n: nat, s: ContextState)
    requires |branch| == n + 1 && branch[n].entryType == CompactionEntry
    ensures ApplyCompaction(s, branch[..n], branch[n]).messages ==
      LastSummary(branch) + MessagesFrom(branch[ReplayStart(branch)..])
  {
    hide MessagesFrom;
    assert LastCompaction(branch) == Some(n);
    MessagesFromAppend(branch, n, ReplayStart(branch));
  }

  /** An assistant message that the model sees and for which the provider reported usage. */
  predicate HasAnchor(e: Entry) {
    e.entryType == MessageEntry && e.modelFacing && e.message.role == RoleAssistant && e.usage.Some?
  }

  ghost predicate NoAnchorFrom(branch: seq<Entry>, from: nat) {
    forall i | from <= i < |branch| :: !HasAnchor(branch[i])
  }

  /** The first index behind the last compaction. */
  function BehindCompaction(branch: seq<Entry>): nat {
    match LastCompaction(branch)
    case None => 0
    case Some(c) => c + 1
  }

  /** Entry j is the newest one with usage since the last compaction, and the anchor describes its message. */
  ghost predicate AnchoredBy(branch: seq<Entry>, s: ContextState, j: nat) {
    && s.anchor.Some? && BehindCompaction(branch) <= j < |branch| && HasAnchor(branch[j])
    && NoAnchorFrom(branch, j + 1)
    && s.anchor.value.messageIndex < |s.messages|
    && s.messages[s.anchor.value.messageIndex] == branch[j].message
    && s.anchor.value == UsageAnchor(
      branch[j].id, s.anchor.value.messageIndex, branch[j].message.provider, branch[j].message.modelName,
      branch[j].usage.value)
  }

  lemma BehindCompactionAfter(branch: seq<Entry>)
    requires branch != []
    ensures BehindCompaction(branch) ==
      if branch[|branch| - 1].entryType == CompactionEntry then |branch| else BehindCompaction(branch[..|branch| - 1])
  {
  }

  lemma AnchorIsNew(branch: seq<Entry>, n: nat)
    requires |branch| == n + 1 && HasAnchor(branch[n])
    ensures AnchoredBy(branch, ContextOf(branch), n)
  {
    BehindCompactionAfter(branch);
    hide BehindCompaction, MessagesFrom;
  }

  lemma ContextAfterEntry(branch: seq<Entry>, n: nat)
    requires |branch| == n + 1 && branch[n].entryType != CompactionEntry
    ensures ContextOf(branch) == ApplyEntry(ContextOf(branch[..n]), branch[n])
  {
  }

  lemma NoAnchorAfter(branch: seq<Entry>, n: nat, from: nat)
    requires |branch| == n + 1 && !HasAnchor(branch[n]) && NoAnchorFrom(branch[..n], from)
    ensures NoAnchorFrom(branch, from)
  {
    forall i | from <= i < n ensures !HasAnchor(branch[i]) {
      assert branch[..n][i] == branch[i];
    }
  }

  lemma AnchorStays(branch: seq<Entry>, n: nat, j: nat)
    requires |branch| == n + 1 && !HasAnchor(branch[n]) && branch[n].entryType != CompactionEntry
    requires AnchoredBy(branch[..n], ContextOf(branch[..n]), j)
    ensures AnchoredBy(branch, ContextOf(branch), j)
  {
    hide BehindCompaction, ContextOf, ApplyEntry, NoAnchorFrom, HasAnchor;
    var before := ContextOf(branch[..n]);
    BehindCompactionAfter(branch);
    ContextAfterEntry(branch, n);
    AnchorUnchanged(before, branch[n]);
    AppliedMessages(before, branch[n]);
    NoAnchorAfter(branch, n, j + 1);
    assert branch[..n][j] == branch[j];
    UsageOfAnchor(branch[j]);
  }

  lemma UsageOfAnchor(e: Entry)
    requires HasAnchor(e)
    ensures e.usage.Some?
  {
  }

  lemma NoAnchorYet(branch: seq<Entry>, n: nat)
    requires |branch| == n + 1 && !HasAnchor(branch[n]) && branch[n].entryType != CompactionEntry
    requires ContextOf(branch[..n]).anchor.None? && NoAnchorFrom(branch[..n], BehindCompaction(branch[..n]))
    ensures ContextOf(branch).anchor.None? && NoAnchorFrom(branch, BehindCompaction(branch))
  {
    hide BehindCompaction, ContextOf, ApplyEntry, NoAnchorFrom, HasAnchor;
    BehindCompactionAfter(branch);
    ContextAfterEntry(branch, n);
    AnchorUnchanged(ContextOf(branch[..n]), branch[n]);
    NoAnchorAfter(branch, n, BehindCompaction(branch));
  }

  lemma AnchorUnchanged(s: ContextState, e: Entry)
    requires !HasAnchor(e) && e.entryType != CompactionEntry
    ensures ApplyEntry(s, e).anchor == s.anchor
  {
  }

  /**
   * The usage anchor describes the newest assistant message with usage since the last compaction, at its place in the
   * context; there is none exactly when no such message exists.
   */
  lemma {:induction false} UsageAnchorIsCurrent(branch: seq<Entry>)
    ensures ContextOf(branch).anchor.Some? ==> exists j: nat :: AnchoredBy(branch, ContextOf(branch), j)
    ensures ContextOf(branch).anchor.None? ==> NoAnchorFrom(branch, BehindCompaction(branch))
  {
    if branch != [] {
      var n := |branch| - 1;
      UsageAnchorIsCurrent(branch[..n]);
      BehindCompactionAfter(branch);
      if HasAnchor(branch[n]) {
        AnchorIsNew(branch, n);
      } else if branch[n].entryType != CompactionEntry {
        AnchorUnchanged(ContextOf(branch[..n]), branch[n]);
        if ContextOf(branch[..n]).anchor.Some? {
          var j: nat :| AnchoredBy(branch[..n], ContextOf(branch[..n]), j);
          AnchorStays(branch, n, j);
        } else {
          NoAnchorYet(branch, n);
        }
      }
    }
  }
}
