/**
 * The bounded summary reducer (internal/assistant/context_compaction.go, internal/assistant/context_summary.go).
 *
 * The provider is an arbitrary function of how many requests it has seen and of the request, so every statement here
 * holds for every behaviour of the provider.
 */
module Reducer {
  import opened Text
  import opened Entries
  import opened Groups
  import opened Integers
  import opened FinishReasons
  import opened SummaryBudget
  import Checkpoint
  import Appendices

  const MAX_DEPTH := 4

  datatype Reply =
    | NoReply
    | Reply(text: string, finishReason: FinishReason, incompleteReason: string, providerFinishReason: string)

  datatype SummaryError =
    | Overhead
    | Overflow
    | ProviderUnavailable
    | OutputTruncated
    | Filtered
    | Declined
    | Cancelled
    | ProviderFailure
    | EmptySummary
    | BadStructure
    | NoProgress

  datatype SummaryResult = Summary(text: string) | Failure(error: SummaryError)

  datatype Completion = Completion(systemPrompt: string, messages: seq<Message>, contextWindow: int, maxTokens: int)

  datatype Request = Request(completion: Completion, input: BudgetInput)

  /** The provider and the configuration that the reducer runs against. */
  datatype World = World(
    reply: (nat, Completion) -> Reply, repairPrompt: string, providerReserve: int, safetyMargin: int)

  // ----- one summary -----

  function Preflight(request: Request): Option<BudgetDefect> {
    Validate(NewSummaryBudget(request.input))
  }

  function NewSummaryRequest(w: World, c: Completion): Request {
    Request(c, BudgetInput(
      SummaryWindow(c.contextWindow), EstimateTokens(c.systemPrompt), EstimateMessages(c.messages),
      Max(w.providerReserve, 0), Max(w.safetyMargin, 0), ENVELOPE_TOKENS, c.maxTokens))
  }

  function UserMessage(text: string): Message {
    Message(0, RoleUser, text, "", "", [])
  }

  function RepairRequest(w: World, request: Request, text: string): Request {
    var c := request.completion.(systemPrompt := w.repairPrompt, messages := [UserMessage(text)]);
    Request(c, request.input.(
      systemPromptTokens := EstimateTokens(c.systemPrompt), historyTokens := EstimateMessages(c.messages)))
  }

  predicate WasTruncated(reply: Reply)
    requires reply.Reply?
  {
    || reply.finishReason == Length
    || reply.incompleteReason == "max_output_tokens"
    || reply.providerFinishReason == "max_tokens"
  }

  /** What a reply is worth, checked in the source's order. */
  function Judge(reply: Reply, maxTokens: int): SummaryResult {
    if reply.NoReply? then Failure(ProviderUnavailable)
    else
      var text := TrimSpace(reply.text);
      if WasTruncated(reply) then Failure(OutputTruncated)
      else if reply.finishReason == ContentFilter then Failure(Filtered)
      else if reply.finishReason == Refusal then Failure(Declined)
      else if reply.finishReason == Aborted then Failure(Cancelled)
      else if reply.finishReason == Error || reply.providerFinishReason == "model_context_window_exceeded" then
        Failure(ProviderFailure)
      else if text == "" then Failure(EmptySummary)
      else if EstimateTokens(text) > maxTokens then Failure(OutputTruncated)
      else Summary(text)
  }

  /**
   * A reply becomes a summary exactly when it ended normally, was not cut off, shows something and keeps the output
   * limit; it counts as truncated exactly when the provider says so or it would be a summary but for its length.
   */
  lemma ReplyIsSummaryExactly(reply: Reply, maxTokens: int)
    ensures Judge(reply, maxTokens).Summary? <==>
      EndedNormally(reply) && !WasTruncated(reply) && 0 < EstimateTokens(reply.text) <= maxTokens
    ensures Judge(reply, maxTokens) == Failure(OutputTruncated) <==>
      reply.Reply? && (WasTruncated(reply) || (EndedNormally(reply) && EstimateTokens(reply.text) > Max(maxTokens, 0)))
    ensures Judge(reply, maxTokens).Summary? ==> Judge(reply, maxTokens).text == TrimSpace(reply.text)
  {
    if reply.Reply? {
      TrimSpaceShape(reply.text);
      TrimSpaceFixed(TrimSpace(reply.text));
    }
  }

  predicate EndedNormally(reply: Reply) {
    && reply.Reply? && reply.finishReason in {Unknown, Stop, Length, ToolCalls}
    && reply.providerFinishReason != "model_context_window_exceeded"
  }

  /** One attempt after `sent` requests: the provider sees the request only when its budget passes. */
  function CompleteSummaryAttempt(w: World, sent: nat, request: Request): (SummaryResult, nat) {
    match Preflight(request)
    case Some(FixedOverhead) => (Failure(Overhead), sent)
    case Some(InputOverflow) => (Failure(Overflow), sent)
    case None => (Judge(w.reply(sent, request.completion), request.completion.maxTokens), sent + 1)
  }

  /** The first summary, or its one repair when its structure does not conform. */
  ghost function Completed(w: World, sent: nat, request: Request): (SummaryResult, nat) {
    var (first, mid) := CompleteSummaryAttempt(w, sent, request);
    if first.Failure? || Checkpoint.Conforms(Checkpoint.Lines(first.text)) then (first, mid)
    else
      var (second, after) := CompleteSummaryAttempt(w, mid, RepairRequest(w, request, first.text));
      if second.Failure? || Checkpoint.Conforms(Checkpoint.Lines(second.text)) then (second, after)
      else (Failure(BadStructure), after)
  }

  method CompleteSummary(w: World, sent: nat, request: Request) returns (r: SummaryResult, after: nat)
    ensures (r, after) == Completed(w, sent, request)
  {
    hide Checkpoint.Conforms, Checkpoint.Lines, Judge, Preflight;
    var (first, mid) := CompleteSummaryAttempt(w, sent, request);
    if first.Failure? {
      return first, mid;
    }
    var defect := Checkpoint.ValidateCheckpoint(first.text);
    if defect.None? {
      return first, mid;
    }
    var (second, end) := CompleteSummaryAttempt(w, mid, RepairRequest(w, request, first.text));
    if second.Failure? {
      return second, end;
    }
    defect := Checkpoint.ValidateCheckpoint(second.text);
    if defect.Some? {
      return Failure(BadStructure), end;
    }
    r, after := second, end;
  }

  /** A text that the reducer may pass on: it conforms, is trimmed and visible, and keeps to the output limit. */
  ghost predicate Acceptable(text: string, maxTokens: int) {
    && Checkpoint.Conforms(Checkpoint.Lines(text))
    && text != "" && TrimSpace(text) == text
    && EstimateTokens(text) <= maxTokens
  }

  /**
   * At most two requests per summary, none at all when the budget does not pass; a returned summary is acceptable;
   * and a truncated one means that the request itself had passed its budget.
   */
  lemma SummaryPromises(w: World, sent: nat, request: Request)
    ensures var (r, after) := Completed(w, sent, request);
      && sent <= after <= sent + 2
      && (after == sent <==> Preflight(request).Some?)
      && (r.Summary? ==> Acceptable(r.text, request.completion.maxTokens))
      && (r == Failure(OutputTruncated) ==> Preflight(request).None?)
  {
    hide Checkpoint.Conforms, Checkpoint.Lines, CompleteSummaryAttempt, Preflight, TrimSpace, EstimateTokens;
    AttemptPromises(w, sent, request);
    var (first, mid) := CompleteSummaryAttempt(w, sent, request);
    if first.Summary? {
      AttemptPromises(w, mid, RepairRequest(w, request, first.text));
    }
  }

  lemma AttemptPromises(w: World, sent: nat, request: Request)
    ensures var (r, after) := CompleteSummaryAttempt(w, sent, request);
      && after == (if Preflight(request).None? then sent + 1 else sent)
      && (r.Summary? || r == Failure(OutputTruncated) ==> Preflight(request).None?)
      && (r.Summary? ==>
        r.text != "" && TrimSpace(r.text) == r.text && EstimateTokens(r.text) <= request.completion.maxTokens)
  {
    hide Judge, Validate, NewSummaryBudget, TrimSpace, EstimateTokens;
    JudgedSummary(w.reply(sent, request.completion), request.completion.maxTokens);
  }

  lemma JudgedSummary(reply: Reply, maxTokens: int)
    ensures var r := Judge(reply, maxTokens);
      r.Summary? ==> r.text != "" && TrimSpace(r.text) == r.text && EstimateTokens(r.text) <= maxTokens
  {
    if reply.Reply? {
      TrimSpaceShape(reply.text);
      TrimSpaceFixed(TrimSpace(reply.text));
    }
  }

  // ----- one round of chunks -----

  /** Some partition fits in 32 requests and needs two or more, or two are forced and there are groups for both. */
  ghost predicate CanSplit(groups: seq<SemanticGroup>, limit: int, force: bool) {
    && Packable(groups, limit, MAX_CHUNKS)
    && |groups| >= 2
    && (force || Span(groups, 0, |groups|) > limit)
  }

  /** The chunks of a reduction round: the two halves when one request would do, and else a smallest partition. */
  ghost predicate SplitInto(groups: seq<SemanticGroup>, limit: int, chunks: seq<Chunk>, cuts: seq<nat>) {
    && 2 <= |chunks| <= MAX_CHUNKS
    && Carries(chunks, cuts, groups) && Admissible(cuts, groups, limit)
    && if Span(groups, 0, |groups|) <= limit then cuts == [0, |groups| / 2, |groups|]
       else forall other: seq<nat> | Admissible(other, groups, limit) :: |chunks| < |other|
  }

  lemma OneChunkSuffices(groups: seq<SemanticGroup>, limit: int)
    requires groups != []
    ensures Admissible([0, |groups|], groups, limit) <==> Span(groups, 0, |groups|) <= limit
  {
    var cuts := [0, |groups|];
    assert cuts[0] == 0 && cuts[1] == |groups|;
  }

  lemma OneChunkIsEverything(groups: seq<SemanticGroup>, limit: int, chunks: seq<Chunk>, cuts: seq<nat>)
    requires Carries(chunks, cuts, groups) && Admissible(cuts, groups, limit) && |chunks| == 1
    ensures Span(groups, 0, |groups|) <= limit
  {
    assert cuts[0] == 0 && cuts[1] == |groups|;
  }

  /** Halves of groups that fit in one request fit, too. */
  lemma HalvesFit(groups: seq<SemanticGroup>, limit: int)
    requires AllPackable(groups, limit) && |groups| >= 2 && Span(groups, 0, |groups|) <= limit
    ensures Admissible([0, |groups| / 2, |groups|], groups, limit)
  {
    var half := |groups| / 2;
    assert NonNegative(groups) by {
      assert forall i | 0 <= i < |groups| :: GroupDefect(groups[i], i, limit).None?;
    }
    SpanGrows(groups, 0, half, |groups|);
    var cuts := [0, half, |groups|];
    assert cuts[0] == 0 && cuts[1] == half && cuts[2] == |groups|;
  }

  function ChunkFromGroups(groups: seq<SemanticGroup>): Chunk {
    Chunk(groups, MessagesOf(groups), EstimateMessages(MessagesOf(groups)))
  }

  lemma ChunkOfHalf(groups: seq<SemanticGroup>, lo: nat, hi: nat)
    requires lo <= hi <= |groups| && Measured(groups)
    ensures ChunkFromGroups(groups[lo..hi]) == ChunkOf(groups, lo, hi)
  {
    SpanMeasuresMessages(groups, lo, hi);
    GroupMessagesOfSlice(groups, lo, hi);
  }

  lemma {:induction false} GroupMessagesOfSlice(groups: seq<SemanticGroup>, lo: nat, hi: nat)
    requires lo <= hi <= |groups|
    ensures MessagesOf(groups[lo..hi]) == GroupMessages(groups, lo, hi)
    decreases hi
  {
    if lo < hi {
      GroupMessagesOfSlice(groups, lo, hi - 1);
      assert groups[lo..hi][..hi - 1 - lo] == groups[lo..hi - 1];
    }
  }

  datatype SplitResult = Chunks(chunks: seq<Chunk>) | CannotSplit

  method PartitionReductionGroups(groups: seq<SemanticGroup>, limit: int, force: bool)
    returns (r: SplitResult, ghost cuts: seq<nat>)
    requires Measured(groups)
    ensures r.Chunks? <==> CanSplit(groups, limit, force)
    ensures r.Chunks? ==> SplitInto(groups, limit, r.chunks, cuts)
  {
    hide Measured, Span, AllPackable, ChunkOf, Admissible, Carries;
    var packed;
    packed, cuts := Partition(groups, limit, MAX_CHUNKS);
    if packed.Refused? {
      return CannotSplit, cuts;
    }
    var chunks := packed.chunks;
    OneChunkSuffices(groups, limit);
    if |chunks| == 1 {
      OneChunkIsEverything(groups, limit, chunks, cuts);
    }
    if force && |chunks| == 1 && |groups| >= 2 {
      var split := |groups| / 2;
      chunks := [ChunkFromGroups(groups[..split]), ChunkFromGroups(groups[split..])];
      cuts := [0, split, |groups|];
      HalvesFit(groups, limit);
      HalvesCarry(groups, chunks, cuts);
    }
    if |chunks| < 2 {
      return CannotSplit, cuts;
    }
    TwoChunksNeedTwoGroups(chunks, cuts, groups);
    r := Chunks(chunks);
  }

  lemma TwoChunksNeedTwoGroups(chunks: seq<Chunk>, cuts: seq<nat>, groups: seq<SemanticGroup>)
    requires Carries(chunks, cuts, groups) && |chunks| >= 2
    ensures |groups| >= 2
  {
    assert cuts[0] < cuts[1] < cuts[2] <= |groups|;
  }

  lemma HalvesCarry(groups: seq<SemanticGroup>, chunks: seq<Chunk>, cuts: seq<nat>)
    requires Measured(groups) && |groups| >= 2
    requires var split := |groups| / 2;
      && chunks == [ChunkFromGroups(groups[..split]), ChunkFromGroups(groups[split..])]
      && cuts == [0, split, |groups|]
    ensures Carries(chunks, cuts, groups)
  {
    hide ChunkOf, ChunkFromGroups, Measured;
    var split := |groups| / 2;
    ChunkOfHalf(groups, 0, split);
    ChunkOfHalf(groups, split, |groups|);
    assert groups[..split] == groups[0..split] && groups[split..] == groups[split..|groups|];
  }

  /** The outcome of summarising chunks in order: the texts obtained, the failure that stopped it, the requests sent. */
  ghost function Summarized(w: World, sent: nat, base: Completion, chunks: seq<Chunk>):
    (seq<string>, Option<SummaryError>, nat)
  {
    if chunks == [] then ([], None, sent)
    else
      var n := |chunks| - 1;
      var (texts, error, mid) := Summarized(w, sent, base, chunks[..n]);
      if error.Some? then (texts, error, mid)
      else
        var (r, after) := Completed(w, mid, ChunkRequest(w, base, chunks[n]));
        match r
        case Summary(text) => (texts + [text], None, after)
        case Failure(failure) => (texts, Some(failure), after)
  }

  function ChunkRequest(w: World, base: Completion, chunk: Chunk): Request {
    NewSummaryRequest(w, base.(messages := chunk.messages))
  }

  function ReductionGroup(text: string): SemanticGroup {
    SemanticGroup(Reduction, [], [UserMessage(text)], EstimateMessages([UserMessage(text)]))
  }

  function ReductionGroups(texts: seq<string>): (r: seq<SemanticGroup>)
    ensures |r| == |texts| && forall i | 0 <= i < |r| :: r[i] == ReductionGroup(texts[i])
  {
    seq(|texts|, i requires 0 <= i < |texts| => ReductionGroup(texts[i]))
  }

  lemma {:induction false} SummarizedStops(w: World, sent: nat, base: Completion, chunks: seq<Chunk>, k: nat)
    requires k <= |chunks| && Summarized(w, sent, base, chunks[..k]).1.Some?
    ensures Summarized(w, sent, base, chunks) == Summarized(w, sent, base, chunks[..k])
    decreases |chunks|
  {
    hide Completed;
    if k < |chunks| {
      var n := |chunks| - 1;
      assert chunks[..n][..k] == chunks[..k];
      SummarizedStops(w, sent, base, chunks[..n], k);
    } else {
      assert chunks[..k] == chunks;
    }
  }

  method SummarizeReductionChunks(w: World, sent: nat, base: Completion, chunks: seq<Chunk>)
    returns (groups: seq<SemanticGroup>, error: Option<SummaryError>, after: nat)
    ensures var (texts, failure, end) := Summarized(w, sent, base, chunks);
      && error == failure && after == end
      && (error.None? ==> groups == ReductionGroups(texts))
  {
    hide Completed, ReductionGroup;
    groups, after := [], sent;
    for index := 0 to |chunks|
      invariant var (texts, failure, end) := Summarized(w, sent, base, chunks[..index]);
        failure.None? && after == end && groups == ReductionGroups(texts)
    {
      assert chunks[..index + 1][..index] == chunks[..index];
      var r;
      r, after := CompleteSummary(w, after, ChunkRequest(w, base, chunks[index]));
      if r.Failure? {
        SummarizedStops(w, sent, base, chunks, index + 1);
        return [], Some(r.error), after;
      }
      groups := groups + [ReductionGroup(r.text)];
    }
    assert chunks[..|chunks|] == chunks;
    error := None;
  }

  // ----- the levels -----

  function MessagesFromGroups(groups: seq<SemanticGroup>): seq<Message> {
    MessagesOf(groups)
  }

  function HistoryRoom(w: World, base: Completion): int {
    AvailableHistoryTokens(NewSummaryBudget(NewSummaryRequest(w, base).input))
  }

  /** How a reduction went: which chunks each round sent, and how it ended. */
  datatype Trace =
    | Unsplit
    | ChunkFailed(chunks: seq<Chunk>)
    | Stalled(chunks: seq<Chunk>)
    | Finished(chunks: seq<Chunk>)
    | Deeper(chunks: seq<Chunk>, next: Trace)

  /** The request that follows a round: one user message per chunk, with that chunk's summary. */
  function Reduced(base: Completion, texts: seq<string>): Completion {
    base.(messages := MessagesOf(ReductionGroups(texts)))
  }

  /** The round sends chunks of the groups that each fit the base request's history room. */
  ghost predicate Sends(w: World, base: Completion, groups: seq<SemanticGroup>, chunks: seq<Chunk>) {
    exists cuts: seq<nat> :: SplitInto(groups, HistoryRoom(w, base), chunks, cuts)
  }

  /** From `sent` requests on, reducing `base` at this depth takes the course `t`, and ends with `r` after `after`. */
  ghost predicate Reduces(
    w: World, sent: nat, base: Completion, groups: seq<SemanticGroup>, depth: nat, force: bool,
    t: Trace, r: SummaryResult, after: nat)
    decreases t
  {
    if t.Unsplit? then
      && (depth > MAX_DEPTH || !CanSplit(groups, HistoryRoom(w, base), force))
      && r == Failure(NoProgress) && after == sent
    else
      && depth <= MAX_DEPTH && CanSplit(groups, HistoryRoom(w, base), force)
      && Sends(w, base, groups, t.chunks)
      && var (texts, error, mid) := Summarized(w, sent, base, t.chunks);
        var next := Reduced(base, texts);
        match t
        case ChunkFailed(_) => error.Some? && r == Failure(error.value) && after == mid
        case Stalled(_) =>
          && error.None? && EstimateMessages(next.messages) >= EstimateMessages(base.messages)
          && r == Failure(NoProgress) && after == mid
        case Finished(_) =>
          && error.None? && EstimateMessages(next.messages) < EstimateMessages(base.messages)
          && Preflight(NewSummaryRequest(w, next)).None?
          && (r, after) == Completed(w, mid, NewSummaryRequest(w, next))
        case Deeper(_, rest) =>
          && error.None? && EstimateMessages(next.messages) < EstimateMessages(base.messages)
          && Preflight(NewSummaryRequest(w, next)).Some?
          && Reduces(w, mid, next, ReductionGroups(texts), depth + 1, false, rest, r, after)
  }

  lemma ReductionGroupsMeasured(texts: seq<string>)
    ensures Measured(ReductionGroups(texts))
  {
    hide EstimateMessages;
  }

  /** The reducer terminates for every provider, and takes a course that the specification allows. */
  method CompleteReducedSummaryLevel(
    w: World, sent: nat, base: Completion, groups: seq<SemanticGroup>, depth: nat, force: bool)
    returns (r: SummaryResult, after: nat)
    requires Measured(groups)
    ensures exists t :: Reduces(w, sent, base, groups, depth, force, t, r, after)
    decreases MAX_DEPTH + 1 - depth
  {
    hide Measured, CanSplit, SplitInto, HistoryRoom, Completed, Summarized, Preflight, EstimateMessages;
    if depth > MAX_DEPTH {
      assert Reduces(w, sent, base, groups, depth, force, Unsplit, Failure(NoProgress), sent);
      return Failure(NoProgress), sent;
    }
    var split;
    ghost var cuts;
    split, cuts := PartitionReductionGroups(groups, HistoryRoom(w, base), force);
    if split.CannotSplit? {
      assert Reduces(w, sent, base, groups, depth, force, Unsplit, Failure(NoProgress), sent);
      return Failure(NoProgress), sent;
    }
    assert Sends(w, base, groups, split.chunks);
    var reduced, error, mid := SummarizeReductionChunks(w, sent, base, split.chunks);
    if error.Some? {
      assert Reduces(w, sent, base, groups, depth, force, ChunkFailed(split.chunks), Failure(error.value), mid);
      return Failure(error.value), mid;
    }
    ghost var texts := Summarized(w, sent, base, split.chunks).0;
    var next := base.(messages := MessagesFromGroups(reduced));
    if EstimateMessages(next.messages) >= EstimateMessages(base.messages) {
      assert Reduces(w, sent, base, groups, depth, force, Stalled(split.chunks), Failure(NoProgress), mid);
      return Failure(NoProgress), mid;
    }
    if Preflight(NewSummaryRequest(w, next)).None? {
      r, after := CompleteSummary(w, mid, NewSummaryRequest(w, next));
      assert Reduces(w, sent, base, groups, depth, force, Finished(split.chunks), r, after);
      return;
    }
    ReductionGroupsMeasured(texts);
    r, after := CompleteReducedSummaryLevel(w, mid, next, reduced, depth + 1, false);
    ghost var rest :| Reduces(w, mid, next, reduced, depth + 1, false, rest, r, after);
    assert Reduces(w, sent, base, groups, depth, force, Deeper(split.chunks, rest), r, after);
  }

  function Rounds(t: Trace): nat {
    match t
    case Unsplit => 0
    case Deeper(_, next) => 1 + Rounds(next)
    case _ => 1
  }

  /** The most summaries that a course completes. */
  function Summaries(t: Trace): nat {
    match t
    case Unsplit => 0
    case Finished(chunks) => |chunks| + 1
    case Deeper(chunks, next) => |chunks| + Summaries(next)
    case _ => |t.chunks|
  }

  lemma {:induction false} SummarizedSends(w: World, sent: nat, base: Completion, chunks: seq<Chunk>)
    ensures var (texts, error, after) := Summarized(w, sent, base, chunks);
      && sent <= after <= sent + 2 * |chunks|
      && |texts| <= |chunks| && (error.None? ==> |texts| == |chunks|)
      && (forall i | 0 <= i < |texts| :: Acceptable(texts[i], base.maxTokens))
  {
    hide Completed, Acceptable;
    if chunks != [] {
      var n := |chunks| - 1;
      SummarizedSends(w, sent, base, chunks[..n]);
      SummaryPromises(w, Summarized(w, sent, base, chunks[..n]).2, ChunkRequest(w, base, chunks[n]));
    }
  }

  lemma RoundIsBounded(w: World, base: Completion, groups: seq<SemanticGroup>, chunks: seq<Chunk>)
    requires Sends(w, base, groups, chunks)
    ensures 2 <= |chunks| <= MAX_CHUNKS
  {
  }

  /**
   * Every course of the reducer is bounded: no more than four rounds, 32 summaries in each, one summary at the end, and
   * two requests per summary. Its result is acceptable, or the course failed.
   */
  lemma {:induction false} ReductionIsBounded(
    w: World, sent: nat, base: Completion, groups: seq<SemanticGroup>, depth: nat, force: bool,
    t: Trace, r: SummaryResult, after: nat)
    requires Reduces(w, sent, base, groups, depth, force, t, r, after)
    ensures Rounds(t) + depth <= MAX_DEPTH + 1 || t.Unsplit?
    ensures Summaries(t) <= Rounds(t) * MAX_CHUNKS + 1
    ensures sent <= after <= sent + 2 * Summaries(t)
    ensures r.Summary? ==> Acceptable(r.text, base.maxTokens)
    decreases t
  {
    hide CanSplit, HistoryRoom, Completed, Summarized, Preflight, EstimateMessages, Acceptable, Sends, ReductionGroups,
      EstimateTokens;
    if !t.Unsplit? {
      RoundIsBounded(w, base, groups, t.chunks);
      SummarizedSends(w, sent, base, t.chunks);
      var (texts, error, mid) := Summarized(w, sent, base, t.chunks);
      var next := Reduced(base, texts);
      if t.Finished? {
        SummaryPromises(w, mid, NewSummaryRequest(w, next));
      } else if t.Deeper? {
        ReductionIsBounded(w, mid, next, ReductionGroups(texts), depth + 1, false, t.next, r, after);
      }
    }
  }

  /** From the first level: four rounds, 4 * 32 + 1 summaries and twice as many requests at the most. */
  lemma ReductionFromTheTop(
    w: World, sent: nat, base: Completion, groups: seq<SemanticGroup>, t: Trace, r: SummaryResult, after: nat)
    requires Reduces(w, sent, base, groups, 1, true, t, r, after)
    ensures Rounds(t) <= MAX_DEPTH
    ensures Summaries(t) <= MAX_DEPTH * MAX_CHUNKS + 1
    ensures after <= sent + 2 * (MAX_DEPTH * MAX_CHUNKS + 1)
  {
    ReductionIsBounded(w, sent, base, groups, 1, true, t, r, after);
  }

  // ----- no request is refused for its size -----

  /** Every summary that the course asks for passes its budget. */
  ghost predicate AllPass(w: World, sent: nat, base: Completion, t: Trace)
    decreases t
  {
    t.Unsplit? ||
    (&& (forall i | 0 <= i < |t.chunks| :: Preflight(ChunkRequest(w, base, t.chunks[i])).None?)
     && var (texts, _, mid) := Summarized(w, sent, base, t.chunks);
        && (t.Finished? ==> Preflight(NewSummaryRequest(w, Reduced(base, texts))).None?)
        && (t.Deeper? ==> AllPass(w, mid, Reduced(base, texts), t.next)))
  }

  lemma ChunkPasses(w: World, base: Completion, groups: seq<SemanticGroup>, chunks: seq<Chunk>, i: nat)
    requires Measured(groups) && base.maxTokens > 0 && i < |chunks|
    requires CanSplit(groups, HistoryRoom(w, base), true) && Sends(w, base, groups, chunks)
    ensures Preflight(ChunkRequest(w, base, chunks[i])).None?
  {
    hide Measured, AllPackable, GroupMessages, EstimateMessages, EstimateTokens;
    var cuts :| SplitInto(groups, HistoryRoom(w, base), chunks, cuts);
    var input := NewSummaryRequest(w, base).input;
    assert cuts[i + 1 - 1] < cuts[i + 1] && chunks[i] == ChunkOf(groups, cuts[i], cuts[i + 1]);
    SpanMeasuresMessages(groups, cuts[i], cuts[i + 1]);
    RoomMeansViable(input);
    AvailableIsWhatPasses(input, EstimateMessages(chunks[i].messages));
  }

  /** The reducer never asks for a summary that its own budget would refuse. */
  lemma {:induction false} EveryChunkPasses(
    w: World, sent: nat, base: Completion, groups: seq<SemanticGroup>, depth: nat, force: bool,
    t: Trace, r: SummaryResult, after: nat)
    requires Reduces(w, sent, base, groups, depth, force, t, r, after)
    requires Measured(groups) && base.maxTokens > 0
    ensures AllPass(w, sent, base, t)
    decreases t
  {
    hide Measured, HistoryRoom, Completed, Summarized, Preflight, EstimateMessages, SplitInto;
    if !t.Unsplit? {
      forall i | 0 <= i < |t.chunks| ensures Preflight(ChunkRequest(w, base, t.chunks[i])).None? {
        ChunkPasses(w, base, groups, t.chunks, i);
      }
      if t.Deeper? {
        var (texts, error, mid) := Summarized(w, sent, base, t.chunks);
        ReductionGroupsMeasured(texts);
        EveryChunkPasses(w, mid, Reduced(base, texts), ReductionGroups(texts), depth + 1, false, t.next, r, after);
      }
    }
  }

  /** With the runtime's own reply limit the reduction of a plan asks only for summaries that pass. */
  lemma RuntimeRequestsPass(
    w: World, sent: nat, base: Completion, ids: seq<string>, t: Trace, r: SummaryResult, after: nat,
    outputReserve: Int64, modelMaxTokens: Int64, configured: Int64)
    requires RuntimeOutputLimit(outputReserve, modelMaxTokens, configured).Limit?
    requires base.maxTokens == RuntimeOutputLimit(outputReserve, modelMaxTokens, configured).tokens
    requires Reduces(w, sent, base, GroupsOf(base.messages, ids), 1, true, t, r, after)
    ensures AllPass(w, sent, base, t)
  {
    hide Reduces, Turns, AllPass, MessagesOf;
    RuntimeLimitIsLargest(outputReserve, modelMaxTokens, configured);
    GroupsPreserveMessages(base.messages, ids);
    TurnsAreMeasured(GroupsOf(base.messages, ids));
    EveryChunkPasses(w, sent, base, GroupsOf(base.messages, ids), 1, true, t, r, after);
  }

  /** Each round sends every message of its groups exactly once, in order. */
  lemma RoundSendsEverything(w: World, base: Completion, groups: seq<SemanticGroup>, chunks: seq<Chunk>)
    requires Sends(w, base, groups, chunks)
    ensures ConcatMessages(chunks) == MessagesOf(groups)
  {
    hide MessagesOf, ConcatMessages, HistoryRoom;
    var cuts :| SplitInto(groups, HistoryRoom(w, base), chunks, cuts);
    ChunksSendEverything(chunks, cuts, groups);
    assert groups[..cuts[|cuts| - 1]] == groups;
  }

  // ----- entered from a truncated summary -----

  /** Fewer history tokens than a passing request has pass, too. */
  lemma SmallerPasses(w: World, base: Completion, next: Completion)
    requires Preflight(NewSummaryRequest(w, base)).None?
    requires next == base.(messages := next.messages)
    requires EstimateMessages(next.messages) <= EstimateMessages(base.messages)
    ensures Preflight(NewSummaryRequest(w, next)).None?
  {
    hide EstimateMessages, EstimateTokens;
  }

  lemma PassingFits(w: World, base: Completion, groups: seq<SemanticGroup>)
    requires Measured(groups) && MessagesOf(groups) == base.messages
    requires Preflight(NewSummaryRequest(w, base)).None?
    ensures Span(groups, 0, |groups|) <= HistoryRoom(w, base)
  {
    hide Measured, EstimateMessages, EstimateTokens;
    assert groups[..|groups|] == groups;
    GroupMessagesAll(groups, |groups|);
    SpanMeasuresMessages(groups, 0, |groups|);
  }

  lemma HalvesWhenItFits(w: World, base: Completion, groups: seq<SemanticGroup>, chunks: seq<Chunk>)
    requires Sends(w, base, groups, chunks) && Span(groups, 0, |groups|) <= HistoryRoom(w, base)
    ensures |chunks| == 2 && chunks[0] == ChunkOf(groups, 0, |groups| / 2)
    ensures chunks[1] == ChunkOf(groups, |groups| / 2, |groups|)
  {
    hide HistoryRoom, ChunkOf, Span;
    var cuts :| SplitInto(groups, HistoryRoom(w, base), chunks, cuts);
    assert cuts[0] == 0 && cuts[1] == |groups| / 2 && cuts[2] == |groups|;
    assert chunks[1 - 1] == ChunkOf(groups, cuts[1 - 1], cuts[1]);
    assert chunks[2 - 1] == ChunkOf(groups, cuts[2 - 1], cuts[2]);
  }

  /**
   * A reduction that starts from a request which passed its budget never recurses: it is refused, or sends exactly the
   * two halves of the history and then at most one more request, for which there is room.
   */
  lemma TruncatedNeverRecurses(
    w: World, sent: nat, base: Completion, groups: seq<SemanticGroup>, t: Trace, r: SummaryResult, after: nat)
    requires Reduces(w, sent, base, groups, 1, true, t, r, after)
    requires Measured(groups) && MessagesOf(groups) == base.messages
    requires Preflight(NewSummaryRequest(w, base)).None?
    ensures !t.Deeper?
    ensures !t.Unsplit? ==>
      t.chunks == [ChunkOf(groups, 0, |groups| / 2), ChunkOf(groups, |groups| / 2, |groups|)]
    ensures Summaries(t) <= 3 && after <= sent + 6
  {
    hide Measured, Completed, Summarized, Preflight, EstimateMessages, CanSplit, MessagesOf, HistoryRoom, Span, Sends,
      NewSummaryRequest, ReductionGroups;
    ReductionIsBounded(w, sent, base, groups, 1, true, t, r, after);
    PassingFits(w, base, groups);
    if !t.Unsplit? {
      HalvesWhenItFits(w, base, groups, t.chunks);
      var next := Reduced(base, Summarized(w, sent, base, t.chunks).0);
      if EstimateMessages(next.messages) < EstimateMessages(base.messages) {
        SmallerPasses(w, base, next);
      }
    }
  }

  /**
   * Passing history is split exactly when it begins with a turn and holds two of them, each of which costs something.
   */
  lemma OnlyWholeTurnsAreReduced(
    w: World, sent: nat, base: Completion, messages: seq<Message>, ids: seq<string>,
    t: Trace, r: SummaryResult, after: nat)
    requires messages != [] && base.messages == messages && Preflight(NewSummaryRequest(w, base)).None?
    requires Reduces(w, sent, base, GroupsOf(messages, ids), 1, true, t, r, after)
    ensures var groups := GroupsOf(messages, ids);
      !t.Unsplit? <==>
        && StartsTurn(messages[0].role) && |groups| >= 2
        && forall i | 0 <= i < |groups| :: groups[i].tokens > 0
  {
    hide Completed, Summarized, Preflight, EstimateMessages, HistoryRoom, GroupsOf, CanSplit, Reduces, Turns, Span;
    var groups := GroupsOf(messages, ids);
    GroupsPreserveMessages(messages, ids);
    TurnsAreMeasured(groups);
    PassingFits(w, base, groups);
    OrphanedHistoryIsRefused(messages, ids, HistoryRoom(w, base));
    SplitWhenPossible(w, sent, base, groups, t, r, after);
    FittingGroupsSplit(groups, HistoryRoom(w, base), StartsTurn(messages[0].role));
  }

  lemma SplitWhenPossible(
    w: World, sent: nat, base: Completion, groups: seq<SemanticGroup>, t: Trace, r: SummaryResult, after: nat)
    requires Reduces(w, sent, base, groups, 1, true, t, r, after)
    ensures !t.Unsplit? <==> CanSplit(groups, HistoryRoom(w, base), true)
  {
    hide Completed, Summarized, Preflight, EstimateMessages, HistoryRoom, CanSplit, Sends;
  }

  /** Groups that fit together can be split when there are two of them and each is packable. */
  lemma FittingGroupsSplit(groups: seq<SemanticGroup>, room: int, whole: bool)
    requires groups != [] && NonNegative(groups) && Span(groups, 0, |groups|) <= room
    requires AllPackable(groups, room) <==> whole && forall i | 0 <= i < |groups| :: 0 < groups[i].tokens <= room
    ensures CanSplit(groups, room, true) <==>
      whole && |groups| >= 2 && forall i | 0 <= i < |groups| :: groups[i].tokens > 0
  {
    hide AllPackable, Span;
    forall i | 0 <= i < |groups| ensures groups[i].tokens <= room {
      GroupWithinSpan(groups, i);
    }
    OneChunkSuffices(groups, room);
    hide Admissible;
    assert |[0, |groups|]| <= MAX_CHUNKS + 1;
    if forall i | 0 <= i < |groups| :: groups[i].tokens > 0 {
      assert groups[0].tokens > 0;
    }
  }

  lemma TurnsAreMeasured(groups: seq<SemanticGroup>)
    requires Turns(groups)
    ensures Measured(groups) && NonNegative(groups)
  {
    forall i | 0 <= i < |groups| ensures groups[i].tokens == EstimateMessages(groups[i].messages) {
      assert IsTurn(groups[i]);
    }
  }

  lemma GroupWithinSpan(groups: seq<SemanticGroup>, i: nat)
    requires NonNegative(groups) && i < |groups|
    ensures groups[i].tokens <= Span(groups, 0, |groups|)
  {
    SpanGrows(groups, 0, i + 1, |groups|);
    SpanGrows(groups, 0, i, i + 1);
    assert Span(groups, i, i + 1) == groups[i].tokens;
  }

  // ----- the whole summary -----

  datatype CompactionSummary =
    | Appended(text: string)
    | Failed(error: SummaryError)
    | BothFailed(initial: SummaryError, reduction: SummaryError)

  /** The history of a compaction fits one request or is summarised in two halves: at most four summaries in all. */
  method SummarizeCompaction(
    w: World, sent: nat, request: Completion, groups: seq<SemanticGroup>,
    files: seq<Appendices.FileOperation>, validations: seq<Appendices.ValidationRecord>,
    work: seq<Appendices.ActiveWorkRecord>)
    returns (r: CompactionSummary, after: nat, ghost outcome: SummaryResult)
    requires Measured(groups) && MessagesOf(groups) == request.messages
    ensures sent <= after <= sent + 8
    ensures after == sent <==> Preflight(NewSummaryRequest(w, request)).Some?
    ensures r.Appended? <==> outcome.Summary?
    ensures r.Appended? ==> Acceptable(outcome.text, request.maxTokens)
    ensures r.Appended? ==> Appendices.Strip(r.text) == Appendices.Strip(outcome.text)
    ensures var (first, mid) := Completed(w, sent, NewSummaryRequest(w, request));
      if first != Failure(OutputTruncated) then
        outcome == first && after == mid && (r.Appended? || r == Failed(first.error))
      else
        && (r.Appended? || r == BothFailed(OutputTruncated, outcome.error))
        && exists t :: Reduces(w, mid, request, groups, 1, true, t, outcome, after)
  {
    hide Measured, Completed, Reduces, Preflight, Acceptable, MessagesOf, Appendices.Strip;
    var first := NewSummaryRequest(w, request);
    var result;
    result, after := CompleteSummary(w, sent, first);
    SummaryPromises(w, sent, first);
    outcome := result;
    if result == Failure(OutputTruncated) {
      ghost var mid := after;
      result, after := CompleteReducedSummaryLevel(w, after, request, groups, 1, true);
      ghost var t :| Reduces(w, mid, request, groups, 1, true, t, result, after);
      outcome := result;
      ReductionIsBounded(w, mid, request, groups, 1, true, t, result, after);
      TruncatedNeverRecurses(w, mid, request, groups, t, result, after);
      if result.Failure? {
        return BothFailed(OutputTruncated, result.error), after, outcome;
      }
    }
    if result.Failure? {
      return Failed(result.error), after, outcome;
    }
    ghost var chain;
    var text;
    text, chain := Appendices.AppendDeterministicState(result.text, files, validations, work);
    r := Appended(text);
  }
}
