/** Summary input groups and their packing into requests (internal/compaction/groups.go). */
module Groups {
  import opened Text
  import opened Entries
  import opened Integers

  datatype GroupKind = HistoryTurn | Reduction | OtherKind(name: string)

  datatype SemanticGroup = SemanticGroup(kind: GroupKind, entryIds: seq<string>, messages: seq<Message>, tokens: int)

  datatype Chunk = Chunk(groups: seq<SemanticGroup>, messages: seq<Message>, tokens: int)

  datatype PartitionError =
    | FixedOverhead
    | EmptyGroup(index: nat)
    | OrphanedMessage(index: nat)
    | IndivisibleGroup(index: nat)
    | EmptyChunk
    | TooManyChunks
    | NoChunks

  datatype PartitionResult = Packed(chunks: seq<Chunk>) | Refused(error: PartitionError)

  const MAX_CHUNKS := 32

  predicate StartsTurn(role: Role) {
    role in {RoleUser, RoleCustom, RoleBashExecution}
  }

  // ----- grouping -----

  function IdList(ids: seq<string>, index: nat): seq<string> {
    if index < |ids| && ids[index] != "" then [ids[index]] else []
  }

  function AddMessage(groups: seq<SemanticGroup>, m: Message, ids: seq<string>): (r: seq<SemanticGroup>)
    ensures r != []
  {
    if groups == [] || StartsTurn(m.role) then groups + [SemanticGroup(HistoryTurn, ids, [m], EstimateMessage(m))]
    else
      var last := groups[|groups| - 1];
      groups[..|groups| - 1] + [last.(
        messages := last.messages + [m],
        entryIds := last.entryIds + ids,
        tokens := last.tokens + EstimateMessage(m))]
  }

  /** The groups of a message list; `ids` may be longer than the list. */
  function GroupsOf(messages: seq<Message>, ids: seq<string>): seq<SemanticGroup> {
    if messages == [] then []
    else
      var n := |messages| - 1;
      AddMessage(GroupsOf(messages[..n], ids), messages[n], IdList(ids, n))
  }

  const EMPTY_TURN := SemanticGroup(HistoryTurn, [], [], 0)

  function Grown(group: SemanticGroup, m: Message, ids: seq<string>): SemanticGroup {
    SemanticGroup(group.kind, group.entryIds + ids, group.messages + [m], group.tokens + EstimateMessage(m))
  }

  /** Opening an empty turn where one starts and growing the last group adds the message. */
  lemma GrowingAdds(before: seq<SemanticGroup>, m: Message, ids: seq<string>)
    ensures var ready := if before == [] || StartsTurn(m.role) then before + [EMPTY_TURN] else before;
      var last := |ready| - 1;
      ready[..last] + [Grown(ready[last], m, ids)] == AddMessage(before, m, ids)
  {
    hide EstimateMessage, StartsTurn;
    if before == [] || StartsTurn(m.role) {
      assert (before + [EMPTY_TURN])[..|before|] == before;
      assert Grown(EMPTY_TURN, m, ids) == SemanticGroup(HistoryTurn, ids, [m], EstimateMessage(m));
    }
  }

  method GroupsFromMessages(messages: seq<Message>, ids: seq<string>) returns (groups: seq<SemanticGroup>)
    ensures groups == GroupsOf(messages, ids)
  {
    hide EstimateMessage, StartsTurn, AddMessage;
    groups := [];
    for index := 0 to |messages|
      invariant groups == GroupsOf(messages[..index], ids)
    {
      var m := messages[index];
      ghost var before := groups;
      if groups == [] || StartsTurn(m.role) {
        groups := groups + [EMPTY_TURN];
      }
      var last := |groups| - 1;
      groups := groups[..last] + [Grown(groups[last], m, IdList(ids, index))];
      GrowingAdds(before, m, IdList(ids, index));
      assert messages[..index + 1][..index] == messages[..index];
    }
    assert messages[..|messages|] == messages;
  }

  function MessagesOf(groups: seq<SemanticGroup>): seq<Message> {
    if groups == [] then [] else MessagesOf(groups[..|groups| - 1]) + groups[|groups| - 1].messages
  }

  /** One conversation turn: only its first message may start a turn, and its tokens are its messages' estimate. */
  ghost predicate IsTurn(group: SemanticGroup) {
    && group.kind == HistoryTurn
    && group.messages != []
    && group.tokens == EstimateMessages(group.messages)
    && forall i | 0 < i < |group.messages| :: !StartsTurn(group.messages[i].role)
  }

  ghost predicate Measured(groups: seq<SemanticGroup>) {
    forall i | 0 <= i < |groups| :: groups[i].tokens == EstimateMessages(groups[i].messages)
  }

  lemma MessagesOfLast(groups: seq<SemanticGroup>, group: SemanticGroup)
    ensures MessagesOf(groups + [group]) == MessagesOf(groups) + group.messages
  {
    assert (groups + [group])[..|groups|] == groups;
  }

  /** A list of turns: a message starts a turn exactly when it stands first in a group, the first group aside. */
  ghost predicate Turns(groups: seq<SemanticGroup>) {
    && (forall i | 0 <= i < |groups| :: IsTurn(groups[i]))
    && (forall i | 0 < i < |groups| :: StartsTurn(groups[i].messages[0].role))
  }

  lemma GrownTurn(group: SemanticGroup, m: Message, ids: seq<string>)
    requires IsTurn(group) && !StartsTurn(m.role)
    ensures IsTurn(group.(
      messages := group.messages + [m], entryIds := group.entryIds + ids, tokens := group.tokens + EstimateMessage(m)))
  {
    assert [m][..0] == [] && EstimateMessages([m]) == EstimateMessage(m);
    EstimateMessagesConcat(group.messages, [m]);
  }

  lemma NewTurnKeepsTurns(groups: seq<SemanticGroup>, m: Message, ids: seq<string>)
    requires Turns(groups) && (groups == [] || StartsTurn(m.role))
    ensures Turns(groups + [SemanticGroup(HistoryTurn, ids, [m], EstimateMessage(m))])
  {
    hide StartsTurn, EstimateMessage;
    assert [m][..0] == [] && EstimateMessages([m]) == EstimateMessage(m);
  }

  lemma GrownTurnKeepsTurns(groups: seq<SemanticGroup>, group: SemanticGroup)
    requires Turns(groups) && groups != [] && IsTurn(group)
    requires group.messages[0] == groups[|groups| - 1].messages[0]
    ensures Turns(groups[..|groups| - 1] + [group])
  {
    hide StartsTurn, EstimateMessages;
  }

  lemma AddMessageKeepsTurns(groups: seq<SemanticGroup>, m: Message, ids: seq<string>)
    requires Turns(groups)
    ensures var r := AddMessage(groups, m, ids);
      && Turns(r) && MessagesOf(r) == MessagesOf(groups) + [m]
      && r[0].messages[0] == (if groups == [] then m else groups[0].messages[0])
  {
    if groups == [] || StartsTurn(m.role) {
      hide Turns, StartsTurn, EstimateMessage, MessagesOf;
      NewTurnKeepsTurns(groups, m, ids);
      MessagesOfLast(groups, SemanticGroup(HistoryTurn, ids, [m], EstimateMessage(m)));
      NoGroupsNoMessages();
    } else {
      hide Turns, StartsTurn, EstimateMessage, MessagesOf;
      var last := groups[|groups| - 1];
      var shorter := groups[..|groups| - 1];
      var grown := last.(
        messages := last.messages + [m], entryIds := last.entryIds + ids, tokens := last.tokens + EstimateMessage(m));
      LastIsTurn(groups);
      GrownTurn(last, m, ids);
      GrownTurnKeepsTurns(groups, grown);
      MessagesOfLast(shorter, grown);
      MessagesOfLast(shorter, last);
      assert shorter + [last] == groups;
      assert MessagesOf(shorter) + (last.messages + [m]) == MessagesOf(groups) + [m];
    }
  }

  lemma NoGroupsNoMessages()
    ensures MessagesOf([]) == []
  {
  }

  lemma LastIsTurn(groups: seq<SemanticGroup>)
    requires Turns(groups) && groups != []
    ensures IsTurn(groups[|groups| - 1]) && IsTurn(groups[0])
  {
  }

  /** Grouping cuts a message list exactly before the turn starts, loses nothing and measures what it holds. */
  lemma {:induction false} GroupsPreserveMessages(messages: seq<Message>, ids: seq<string>)
    ensures var groups := GroupsOf(messages, ids);
      && MessagesOf(groups) == messages
      && Turns(groups)
      && (groups == [] <==> messages == [])
      && (messages != [] ==> groups[0].messages[0] == messages[0])
  {
    if messages != [] {
      var n := |messages| - 1;
      var before := messages[..n];
      assert messages == before + [messages[n]];
      GroupsPreserveMessages(before, ids);
      AddMessageKeepsTurns(GroupsOf(before, ids), messages[n], IdList(ids, n));
    }
  }

  // ----- packing -----

  /** Tokens of groups lo..hi. */
  function Span(groups: seq<SemanticGroup>, lo: nat, hi: nat): int
    requires lo <= hi <= |groups|
  {
    if lo == hi then 0 else Span(groups, lo, hi - 1) + groups[hi - 1].tokens
  }

  predicate NonNegative(groups: seq<SemanticGroup>) {
    forall i | 0 <= i < |groups| :: groups[i].tokens >= 0
  }

  lemma {:induction false} SpanGrows(groups: seq<SemanticGroup>, lo: nat, mid: nat, hi: nat)
    requires lo <= mid <= hi <= |groups| && NonNegative(groups)
    ensures Span(groups, mid, hi) <= Span(groups, lo, hi)
    ensures Span(groups, lo, mid) <= Span(groups, lo, hi)
    ensures 0 <= Span(groups, lo, hi)
    decreases hi
  {
    if mid < hi {
      SpanGrows(groups, lo, mid, hi - 1);
    } else if lo < hi {
      SpanGrows(groups, lo, lo, hi - 1);
    }
  }

  function GroupMessages(groups: seq<SemanticGroup>, lo: nat, hi: nat): seq<Message>
    requires lo <= hi <= |groups|
  {
    if lo == hi then [] else GroupMessages(groups, lo, hi - 1) + groups[hi - 1].messages
  }

  /** The request that carries groups lo..hi. */
  function ChunkOf(groups: seq<SemanticGroup>, lo: nat, hi: nat): Chunk
    requires lo <= hi <= |groups|
  {
    Chunk(groups[lo..hi], GroupMessages(groups, lo, hi), Span(groups, lo, hi))
  }

  /** The reason why a group cannot be packed, checked in the source's order. */
  function GroupDefect(group: SemanticGroup, index: nat, available: int): Option<PartitionError> {
    if group.tokens <= 0 || group.messages == [] then Some(EmptyGroup(index))
    else if group.kind == HistoryTurn && !StartsTurn(group.messages[0].role) then Some(OrphanedMessage(index))
    else if group.tokens > available then Some(IndivisibleGroup(index))
    else None
  }

  predicate AllPackable(groups: seq<SemanticGroup>, available: int) {
    forall i | 0 <= i < |groups| :: GroupDefect(groups[i], i, available).None?
  }

  /**
   * A contiguous partition within the limit, given by its boundaries: consecutive boundaries enclose one non-empty
   * run of groups whose tokens fit.
   */
  ghost predicate Admissible(cuts: seq<nat>, groups: seq<SemanticGroup>, available: int) {
    && |cuts| >= 1 && cuts[0] == 0 && cuts[|cuts| - 1] == |groups|
    && (forall i | 0 <= i < |cuts| :: cuts[i] <= |groups|)
    && (forall i | 0 < i < |cuts| :: cuts[i - 1] < cuts[i])
    && (forall i | 0 < i < |cuts| :: Span(groups, cuts[i - 1], cuts[i]) <= available)
  }

  /** The chunks enclosed by the boundaries. */
  ghost predicate Carries(chunks: seq<Chunk>, cuts: seq<nat>, groups: seq<SemanticGroup>) {
    && |cuts| == |chunks| + 1
    && (forall i | 0 <= i < |cuts| :: cuts[i] <= |groups|)
    && (forall i | 0 < i < |cuts| :: cuts[i - 1] < cuts[i] && chunks[i - 1] == ChunkOf(groups, cuts[i - 1], cuts[i]))
  }

  /** How far a partition has come after its first k chunks. */
  ghost function Covered(cuts: seq<nat>, k: nat): nat
    requires cuts != []
  {
    cuts[Min(k, |cuts| - 1)]
  }

  method PackChunk(groups: seq<SemanticGroup>, start: nat, available: int) returns (chunk: Chunk, next: nat)
    requires start <= |groups|
    ensures start <= next <= |groups|
    ensures chunk == ChunkOf(groups, start, next)
    ensures forall hi | start < hi <= next :: Span(groups, start, hi) <= available
    ensures next < |groups| ==> Span(groups, start, next + 1) > available
  {
    chunk := Chunk([], [], 0);
    next := start;
    while next < |groups| && chunk.tokens + groups[next].tokens <= available
      invariant start <= next <= |groups|
      invariant chunk == ChunkOf(groups, start, next)
      invariant forall hi | start < hi <= next :: Span(groups, start, hi) <= available
    {
      var group := groups[next];
      chunk := Chunk(chunk.groups + [group], chunk.messages + group.messages, chunk.tokens + group.tokens);
      next := next + 1;
      assert chunk.groups == groups[start..next];
    }
  }

  /** The chunks packed so far: they enclose groups 0..index and each of them fits. */
  ghost predicate Packing(chunks: seq<Chunk>, cuts: seq<nat>, groups: seq<SemanticGroup>, available: int, index: nat) {
    && Carries(chunks, cuts, groups) && cuts[0] == 0 && cuts[|cuts| - 1] == index
    && forall i | 0 < i < |cuts| :: Span(groups, cuts[i - 1], cuts[i]) <= available
  }

  lemma PackingNext(
    chunks: seq<Chunk>, cuts: seq<nat>, groups: seq<SemanticGroup>, available: int, index: nat, next: nat)
    requires Packing(chunks, cuts, groups, available, index)
    requires index < next <= |groups| && Span(groups, index, next) <= available
    ensures Packing(chunks + [ChunkOf(groups, index, next)], cuts + [next], groups, available, next)
  {
    hide GroupMessages;
  }

  /**
   * No admissible partition covers more than groups 0..index with its first k chunks, and each has k chunks or more.
   */
  ghost predicate Ahead(groups: seq<SemanticGroup>, available: int, k: nat, index: nat) {
    forall other: seq<nat> | Admissible(other, groups, available) :: Covered(other, k) <= index && k < |other|
  }

  /** A greedy chunk that starts no earlier than a partition's next chunk ends no earlier. */
  lemma StaysAhead(cuts: seq<nat>, groups: seq<SemanticGroup>, available: int, k: nat, index: nat, next: nat)
    requires NonNegative(groups) && Admissible(cuts, groups, available)
    requires index < next <= |groups| && Covered(cuts, k) <= index
    requires next < |groups| ==> Span(groups, index, next + 1) > available
    ensures Covered(cuts, k + 1) <= next
    ensures k + 1 < |cuts|
  {
    var lo, hi := cuts[k], cuts[k + 1];
    if next < hi {
      SpanGrows(groups, lo, index, hi);
      SpanGrows(groups, index, next + 1, hi);
    }
  }

  lemma AheadNext(groups: seq<SemanticGroup>, available: int, k: nat, index: nat, next: nat)
    requires NonNegative(groups) && Ahead(groups, available, k, index) && index < next <= |groups|
    requires next < |groups| ==> Span(groups, index, next + 1) > available
    ensures Ahead(groups, available, k + 1, next)
  {
    forall other: seq<nat> | Admissible(other, groups, available)
      ensures Covered(other, k + 1) <= next && k + 1 < |other|
    {
      StaysAhead(other, groups, available, k, index, next);
    }
  }

  function ChunkLimit(maxChunks: int): nat {
    if maxChunks <= 0 || maxChunks > MAX_CHUNKS then MAX_CHUNKS else maxChunks
  }

  /** Index of the first group that cannot be packed, and why. */
  method ValidateGroups(groups: seq<SemanticGroup>, available: int) returns (defect: Option<PartitionError>)
    ensures defect.None? <==> AllPackable(groups, available)
    ensures defect.Some? ==>
      exists i | 0 <= i < |groups| ::
        && GroupDefect(groups[i], i, available) == defect
        && forall j | 0 <= j < i :: GroupDefect(groups[j], j, available).None?
  {
    for index := 0 to |groups|
      invariant forall i | 0 <= i < index :: GroupDefect(groups[i], i, available).None?
    {
      defect := GroupDefect(groups[index], index, available);
      if defect.Some? {
        return;
      }
    }
    defect := None;
  }

  /** Greedy packing of packable groups, stopped as soon as it needs more than `limit` chunks. */
  method PackAll(groups: seq<SemanticGroup>, available: int, limit: nat)
    returns (r: PartitionResult, ghost cuts: seq<nat>)
    requires AllPackable(groups, available)
    ensures r.Packed? ==> Carries(r.chunks, cuts, groups) && Admissible(cuts, groups, available)
    ensures r.Packed? ==> |r.chunks| <= limit
    ensures r.Packed? ==> forall other: seq<nat> | Admissible(other, groups, available) :: |r.chunks| < |other|
    ensures r.Refused? ==> r.error == TooManyChunks
    ensures r.Refused? ==> forall other: seq<nat> | Admissible(other, groups, available) :: limit + 1 < |other|
  {
    assert NonNegative(groups) by {
      assert forall i | 0 <= i < |groups| :: GroupDefect(groups[i], i, available).None?;
    }
    var chunks := [];
    cuts := [0];
    var index := 0;
    while index < |groups|
      invariant 0 <= index <= |groups| && |chunks| <= limit
      invariant Packing(chunks, cuts, groups, available, index)
      invariant Ahead(groups, available, |chunks|, index)
    {
      var chunk, next := PackChunk(groups, index, available);
      assert index < next by {
        assert GroupDefect(groups[index], index, available).None?;
        assert Span(groups, index, index + 1) == groups[index].tokens;
      }
      if chunk.groups == [] {
        return Refused(EmptyChunk), cuts;
      }
      PackingNext(chunks, cuts, groups, available, index, next);
      AheadNext(groups, available, |chunks|, index, next);
      chunks := chunks + [chunk];
      cuts := cuts + [next];
      if |chunks| > limit {
        return Refused(TooManyChunks), cuts;
      }
      index := next;
    }
    r := Packed(chunks);
  }

  /** Why groups within a positive budget are refused: the first unpackable group, or one chunk too many. */
  ghost predicate RefusalExplained(groups: seq<SemanticGroup>, available: int, limit: nat, error: PartitionError) {
    if available <= 0 then error == FixedOverhead
    else if groups == [] then error == NoChunks
    else if AllPackable(groups, available) then
      && error == TooManyChunks
      && forall other: seq<nat> | Admissible(other, groups, available) :: |other| > limit + 1
    else
      exists i | 0 <= i < |groups| ::
        && GroupDefect(groups[i], i, available) == Some(error)
        && forall j | 0 <= j < i :: GroupDefect(groups[j], j, available).None?
  }

  /** Some contiguous partition of the groups into at most `limit` chunks keeps every chunk within the budget. */
  ghost predicate Packable(groups: seq<SemanticGroup>, available: int, limit: nat) {
    && available > 0 && groups != [] && AllPackable(groups, available)
    && exists other: seq<nat> :: Admissible(other, groups, available) && |other| <= limit + 1
  }

  /**
   * Greedy packing is optimal: it succeeds exactly when the groups are packable and some contiguous partition within
   * the token limit has few enough chunks, and then no such partition has fewer chunks than the result.
   */
  method Partition(groups: seq<SemanticGroup>, available: int, maxChunks: int)
    returns (r: PartitionResult, ghost cuts: seq<nat>)
    ensures r.Packed? ==> Carries(r.chunks, cuts, groups) && Admissible(cuts, groups, available)
    ensures r.Packed? ==> forall other: seq<nat> | Admissible(other, groups, available) :: |r.chunks| < |other|
    ensures r.Packed? ==> 0 < |r.chunks| <= ChunkLimit(maxChunks)
    ensures r.Packed? <==> Packable(groups, available, ChunkLimit(maxChunks))
    ensures r.Refused? ==> RefusalExplained(groups, available, ChunkLimit(maxChunks), r.error)
    ensures r != Refused(EmptyChunk)
  {
    cuts := [0];
    if available <= 0 {
      return Refused(FixedOverhead), cuts;
    }
    var limit := maxChunks;
    if limit <= 0 || limit > MAX_CHUNKS {
      limit := MAX_CHUNKS;
    }
    var defect := ValidateGroups(groups, available);
    if defect.Some? {
      return Refused(defect.value), cuts;
    }
    r, cuts := PackAll(groups, available, limit);
    if r.Packed? && |r.chunks| == 0 {
      return Refused(NoChunks), cuts;
    }
    assert groups == [] ==> Admissible([0], groups, available);
  }

  lemma {:induction false} GroupMessagesAll(groups: seq<SemanticGroup>, hi: nat)
    requires hi <= |groups|
    ensures GroupMessages(groups, 0, hi) == MessagesOf(groups[..hi])
  {
    if hi > 0 {
      GroupMessagesAll(groups, hi - 1);
      assert groups[..hi][..hi - 1] == groups[..hi - 1];
    }
  }

  lemma {:induction false} GroupMessagesSplit(groups: seq<SemanticGroup>, lo: nat, mid: nat, hi: nat)
    requires lo <= mid <= hi <= |groups|
    ensures GroupMessages(groups, lo, hi) == GroupMessages(groups, lo, mid) + GroupMessages(groups, mid, hi)
    decreases hi
  {
    if mid < hi {
      GroupMessagesSplit(groups, lo, mid, hi - 1);
    }
  }

  /** A chunk's token count is the estimate of the messages it sends, when every group is measured. */
  lemma {:induction false} SpanMeasuresMessages(groups: seq<SemanticGroup>, lo: nat, hi: nat)
    requires lo <= hi <= |groups| && Measured(groups)
    ensures Span(groups, lo, hi) == EstimateMessages(GroupMessages(groups, lo, hi))
    decreases hi
  {
    if lo < hi {
      SpanMeasuresMessages(groups, lo, hi - 1);
      EstimateMessagesConcat(GroupMessages(groups, lo, hi - 1), groups[hi - 1].messages);
    }
  }

  function ConcatMessages(chunks: seq<Chunk>): seq<Message> {
    if chunks == [] then [] else ConcatMessages(chunks[..|chunks| - 1]) + chunks[|chunks| - 1].messages
  }

  /** The chunks of a partition send every message of the groups exactly once, in order. */
  lemma {:induction false} ChunksSendEverything(chunks: seq<Chunk>, cuts: seq<nat>, groups: seq<SemanticGroup>)
    requires Carries(chunks, cuts, groups) && cuts[0] == 0
    ensures ConcatMessages(chunks) == MessagesOf(groups[..cuts[|cuts| - 1]])
    decreases |chunks|
  {
    var n := |chunks|;
    if n > 0 {
      var shorter := chunks[..n - 1];
      assert forall i | 0 <= i < |shorter| :: shorter[i] == chunks[i];
      ChunksSendEverything(shorter, cuts[..n], groups);
      GroupMessagesSplit(groups, 0, cuts[n - 1], cuts[n]);
      GroupMessagesAll(groups, cuts[n]);
      GroupMessagesAll(groups, cuts[n - 1]);
    }
  }

  /**
   * Planned history whose first message does not start a turn can never be reduced: its first group is refused at every
   * budget. Planned history that starts with a turn is refused only for its size.
   */
  lemma OrphanedHistoryIsRefused(messages: seq<Message>, ids: seq<string>, available: int)
    requires messages != []
    ensures var groups := GroupsOf(messages, ids);
      AllPackable(groups, available) <==>
        && StartsTurn(messages[0].role)
        && forall i | 0 <= i < |groups| :: 0 < groups[i].tokens <= available
  {
    hide GroupsOf, Turns, MessagesOf, StartsTurn, GroupDefect;
    var groups := GroupsOf(messages, ids);
    GroupsPreserveMessages(messages, ids);
    forall i | 0 <= i < |groups|
      ensures GroupDefect(groups[i], i, available).None? <==>
        0 < groups[i].tokens <= available && (i == 0 ==> StartsTurn(messages[0].role))
    {
      DefectOfTurn(groups, i, available);
    }
  }

  /** The first turn may lack its start; the others have only their size against them. */
  lemma DefectOfTurn(groups: seq<SemanticGroup>, i: nat, available: int)
    requires Turns(groups) && i < |groups|
    ensures groups[0].messages != []
    ensures GroupDefect(groups[i], i, available).None? <==>
      0 < groups[i].tokens <= available && (i == 0 ==> StartsTurn(groups[0].messages[0].role))
  {
    hide StartsTurn, EstimateMessages;
    assert IsTurn(groups[i]) && IsTurn(groups[0]);
  }
}
