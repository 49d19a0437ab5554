/**
 * The one replay after a provider reports context overflow (internal/assistant/context_overflow_compaction.go,
 * internal/assistant/runtime_model.go, internal/assistant/response_classification.go).
 */
module OverflowRecovery {
  import opened Text
  import opened Integers
  import opened FinishReasons

  // ----- classification -----

  datatype ResponseClass =
    | Success
    | ExplicitOverflow
    | MetadataOverflow
    | LengthTruncation
    | ContentFiltered
    | Refused
    | ProviderError

  /** What one provider call returned: an error with its structured code, if it has one, or a completion's metadata. */
  datatype Response =
    | CallFailed(code: string, retryable: bool)
    | Completed(finishReason: FinishReason, providerFinishReason: string, outputTokens: int)

  /** Two percent, rounded up, and eight at least. */
  function OutputLimitTolerance(maximum: int): nat {
    if maximum <= 0 then 0 else Max(8, (2 * maximum + 99) / 100)
  }

  predicate OutputAtLimit(requested: int, reported: int) {
    requested > 0 && reported > 0 && reported >= requested - OutputLimitTolerance(requested)
  }

  function FinishReasonClass(reason: FinishReason): ResponseClass {
    match reason
    case ContentFilter => ContentFiltered
    case Refusal => Refused
    case Length => LengthTruncation
    case Stop => Success
    case ToolCalls => Success
    case _ => ProviderError
  }

  predicate IsStructuredOverflow(code: string) {
    code == "context_window_exceeded" || code == "context_length_exceeded"
  }

  function ClassifyResponse(response: Response, provider: string, requestedMaxOutput: int): ResponseClass {
    match response
    case CallFailed(code, _) => if IsStructuredOverflow(code) then ExplicitOverflow else ProviderError
    case Completed(reason, providerReason, tokens) =>
      if provider == "anthropic" && providerReason == "model_context_window_exceeded" then MetadataOverflow
      else if provider == "anthropic" && providerReason == "max_tokens"
        && reason == Length && requestedMaxOutput > 0 && tokens > 0 && !OutputAtLimit(requestedMaxOutput, tokens) then
        MetadataOverflow
      else FinishReasonClass(reason)
  }

  predicate IsOverflow(category: ResponseClass) {
    category == ExplicitOverflow || category == MetadataOverflow
  }

  /** Only a structured error or Anthropic metadata counts as overflow: a reply that reached its limit never does. */
  lemma OverflowNeedsEvidence(response: Response, provider: string, requested: int)
    requires IsOverflow(ClassifyResponse(response, provider, requested))
    ensures response.CallFailed? ==> IsStructuredOverflow(response.code)
    ensures response.Completed? ==>
      && provider == "anthropic"
      && (response.providerFinishReason == "model_context_window_exceeded"
        || (response.providerFinishReason == "max_tokens" && 0 < response.outputTokens
          && 50 * response.outputTokens < 49 * requested && response.outputTokens + 8 < requested))
  {
  }

  // ----- the decision -----

  datatype Identity = Identity(
    logicalRequestId: string,
    provider: string,
    model: string,
    lineageParent: string,
    providerAttempt: int,
    generation: nat,
    recoveryAttempt: nat
  )

  const EMPTY_IDENTITY := Identity("", "", "", "", 0, 0, 0)

  datatype Replay = Replay(recoveryConsumed: bool, toolDispatchStarted: bool, lineageAdvanced: bool)

  datatype Refusal =
    | IneligibleClass
    | StaleIdentity
    | SideEffectsStarted
    | LineageAdvanced
    | RetryConsumed
    | NothingToCompact

  /** None means that the request is replayed. */
  function DecideOverflowRecovery(
    category: ResponseClass, identity: Identity, active: Identity, replay: Replay, hasCandidate: bool): Option<Refusal>
  {
    if !IsOverflow(category) then Some(IneligibleClass)
    else if identity != active then Some(StaleIdentity)
    else if replay.toolDispatchStarted then Some(SideEffectsStarted)
    else if replay.lineageAdvanced then Some(LineageAdvanced)
    else if replay.recoveryConsumed || identity.recoveryAttempt != 0 then Some(RetryConsumed)
    else if !hasCandidate then Some(NothingToCompact)
    else None
  }

  // ----- the state of one prompt -----

  datatype Compaction = Compacted(entryId: string) | CompactionRefused

  /** Everything that the environment decides: replies, tool dispatch, checkpoints, the selected model, compaction. */
  datatype World = World(
    reply: nat -> Response,
    dispatches: nat -> bool,
    checkpoints: nat -> seq<string>,
    cancelledBefore: nat -> bool,
    selected: nat -> Option<(string, string)>,
    compaction: Compaction,
    rebuildFits: bool,
    retryEnabled: bool,
    maxAttempts: int,
    maxTokens: int
  )

  function AttemptLimit(w: World): nat {
    if !w.retryEnabled || w.maxAttempts <= 1 then 1 else w.maxAttempts
  }

  class PromptLineage {
    const runId: string
    var activeParent: string
    var generation: nat

    constructor (runId: string, parent: string)
      ensures this.runId == runId && activeParent == parent && generation == 0
    {
      this.runId, activeParent, generation := runId, parent, 0;
    }

    method Adopt(entryId: string)
      modifies this
      ensures activeParent == entryId && generation == old(generation) + 1
    {
      activeParent := entryId;
      generation := generation + 1;
    }
  }

  class CompletionRequest {
    const provider: string
    const model: string
    var identity: Identity
    var toolSideEffectsStarted: bool

    constructor (lineage: PromptLineage, provider: string, model: string)
      ensures this.provider == provider && this.model == model
      ensures identity == Identity(lineage.runId, provider, model, lineage.activeParent, 0, lineage.generation, 0)
      ensures !toolSideEffectsStarted
    {
      this.provider, this.model := provider, model;
      identity := Identity(lineage.runId, provider, model, lineage.activeParent, 0, lineage.generation, 0);
      toolSideEffectsStarted := false;
    }
  }

  class RecoveryState {
    var authoritativeAttempt: int
    var recoveryAuthorized: bool
    var consumed: bool

    constructor ()
      ensures authoritativeAttempt == 0 && !recoveryAuthorized && !consumed
    {
      authoritativeAttempt, recoveryAuthorized, consumed := 0, false, false;
    }

    /** Compare-and-swap: the first caller wins. */
    method Reserve() returns (won: bool)
      modifies this`consumed
      ensures won <==> !old(consumed)
      ensures consumed
    {
      won := !consumed;
      consumed := true;
    }
  }

  datatype Attempt = Attempt(identity: Identity, dispatched: bool)

  datatype Outcome = Result(response: Response) | Failed

  class Prompt {
    const w: World
    var lineage: PromptLineage
    var recovery: RecoveryState
    var checks: nat
    /** The provider attempts of the main request, in order. */
    var attempts: seq<Attempt>

    constructor (w: World, runId: string, parent: string)
      ensures this.w == w && fresh(lineage) && fresh(recovery)
      ensures lineage.runId == runId && lineage.activeParent == parent && lineage.generation == 0
      ensures recovery.authoritativeAttempt == 0 && !recovery.recoveryAuthorized && !recovery.consumed
      ensures attempts == [] && checks == 0
    {
      this.w := w;
      lineage := new PromptLineage(runId, parent);
      recovery := new RecoveryState();
      checks, attempts := 0, [];
    }

    /** One provider call. While it runs, tools may be dispatched and checkpoints may advance the lineage. */
    method CompleteAttempt(request: CompletionRequest, attempt: int) returns (response: Response)
      modifies this`attempts, lineage, recovery`authoritativeAttempt, request
      ensures request.identity == old(request.identity).(providerAttempt := attempt)
      ensures recovery.authoritativeAttempt == attempt
      ensures attempts == old(attempts) + [Attempt(request.identity, w.dispatches(old(|attempts|)))]
      ensures request.toolSideEffectsStarted <==> old(request.toolSideEffectsStarted) || w.dispatches(old(|attempts|))
      ensures response == w.reply(old(|attempts|))
      ensures lineage.generation == old(lineage.generation) + |w.checkpoints(old(|attempts|))|
      ensures w.checkpoints(old(|attempts|)) == [] ==> lineage.activeParent == old(lineage.activeParent)
    {
      var n := |attempts|;
      request.identity := request.identity.(providerAttempt := attempt);
      recovery.authoritativeAttempt := attempt;
      attempts := attempts + [Attempt(request.identity, w.dispatches(n))];
      if w.dispatches(n) {
        request.toolSideEffectsStarted := true;
      }
      var entries := w.checkpoints(n);
      for i := 0 to |entries|
        invariant lineage.generation == old(lineage.generation) + i
        invariant i == 0 ==> lineage.activeParent == old(lineage.activeParent)
        invariant recovery.authoritativeAttempt == attempt
        invariant attempts == old(attempts) + [Attempt(request.identity, w.dispatches(n))]
        invariant request.identity == old(request.identity).(providerAttempt := attempt)
        invariant request.toolSideEffectsStarted <==> old(request.toolSideEffectsStarted) || w.dispatches(n)
      {
        lineage.Adopt(entries[i]);
      }
      response := w.reply(n);
    }

    /**
     * Attempts the request until it succeeds, fails for good, dispatches a tool, is cancelled or runs out of attempts.
     * Only the last attempt can have dispatched a tool. With retries, a cancelled prompt may make no attempt at all.
     */
    method CompleteWithRetry(request: CompletionRequest) returns (outcome: Outcome)
      requires !request.toolSideEffectsStarted
      modifies this`attempts, lineage, recovery`authoritativeAttempt, request
      ensures old(attempts) <= attempts && |attempts| <= old(|attempts|) + AttemptLimit(w)
      ensures Quiet(attempts, old(|attempts|), |attempts| - 1)
      ensures request.toolSideEffectsStarted <==> Dispatched(attempts, old(|attempts|))
      ensures recovery.authoritativeAttempt ==
        if |attempts| == old(|attempts|) then old(recovery.authoritativeAttempt) else |attempts| - old(|attempts|)
      ensures request.identity ==
        if |attempts| == old(|attempts|) then old(request.identity)
        else old(request.identity).(providerAttempt := recovery.authoritativeAttempt)
      ensures outcome == Failed || (|attempts| > old(|attempts|) && outcome == Result(w.reply(|attempts| - 1)))
      ensures forall k | old(|attempts|) <= k < |attempts| ::
        attempts[k].identity.recoveryAttempt == request.identity.recoveryAttempt
      ensures outcome == Failed <==> StoppedBefore(attempts, old(|attempts|), |attempts|)
      ensures lineage.generation >= old(lineage.generation)
      ensures lineage.generation == old(lineage.generation) <==> NoCheckpoint(old(|attempts|), |attempts|)
      ensures lineage.generation == old(lineage.generation) ==> lineage.activeParent == old(lineage.activeParent)
    {
      if AttemptLimit(w) > 1 && w.cancelledBefore(|attempts|) {
        return Failed;
      }
      ghost var start := |attempts|;
      var response := CompleteAttempt(request, 1);
      var attempt := 1;
      while attempt < AttemptLimit(w) && response.CallFailed? && response.retryable && !request.toolSideEffectsStarted
        invariant 1 <= attempt <= AttemptLimit(w) && |attempts| == start + attempt
        invariant old(attempts) <= attempts && Quiet(attempts, start, |attempts| - 1)
        invariant request.toolSideEffectsStarted <==> attempts[|attempts| - 1].dispatched
        invariant recovery.authoritativeAttempt == attempt
        invariant request.identity == old(request.identity).(providerAttempt := attempt)
        invariant response == w.reply(|attempts| - 1)
        invariant forall k | start <= k < |attempts| ::
          attempts[k].identity.recoveryAttempt == request.identity.recoveryAttempt
        invariant lineage.generation >= old(lineage.generation)
        invariant lineage.generation == old(lineage.generation) <==> NoCheckpoint(start, |attempts|)
        invariant lineage.generation == old(lineage.generation) ==> lineage.activeParent == old(lineage.activeParent)
      {
        if w.cancelledBefore(|attempts|) {
          return Failed;
        }
        attempt := attempt + 1;
        response := CompleteAttempt(request, attempt);
      }
      outcome := Result(response);
    }

    /** The retries that began at `from` were cancelled where attempt n would have followed. */
    predicate StoppedBefore(attempts: seq<Attempt>, from: nat, n: nat)
      requires n <= |attempts|
    {
      && AttemptLimit(w) > 1 && w.cancelledBefore(n)
      && (n <= from || (
        && n - from < AttemptLimit(w) && !attempts[n - 1].dispatched
        && w.reply(n - 1).CallFailed? && w.reply(n - 1).retryable))
    }

    /** No round was checkpointed during the attempts from..to. */
    predicate NoCheckpoint(from: nat, to: nat) {
      forall k | from <= k < to :: w.checkpoints(k) == []
    }

    function ActiveIdentity(selected: Option<(string, string)>): Identity
      reads this, lineage, recovery
    {
      match selected
      case None => EMPTY_IDENTITY
      case Some(model) => Identity(
        lineage.runId, model.0, model.1, lineage.activeParent, recovery.authoritativeAttempt, lineage.generation,
        if recovery.recoveryAuthorized then 1 else 0)
    }

    predicate RequestIdentityIsActive(request: CompletionRequest, selected: Option<(string, string)>)
      reads this, lineage, recovery, request
    {
      selected.Some? && request.identity == ActiveIdentity(selected)
    }

    function DecideProviderOverflowRecovery(
      request: CompletionRequest, category: ResponseClass, selected: Option<(string, string)>): Option<Refusal>
      reads this, lineage, recovery, request
    {
      DecideOverflowRecovery(
        category, request.identity, ActiveIdentity(selected),
        Replay(
          recovery.consumed, request.toolSideEffectsStarted,
          request.identity.lineageParent != lineage.activeParent || request.identity.generation != lineage.generation),
        true)
    }

    function ClassOf(outcome: Outcome, request: CompletionRequest): ResponseClass {
      if outcome.Failed? then ProviderError else ClassifyResponse(outcome.response, request.provider, w.maxTokens)
    }

    /** Compacts, rebuilds the request and replays it once, unless the request has become stale meanwhile. */
    method RecoverProviderContextOverflow(request: CompletionRequest) returns (outcome: Outcome, replayed: bool)
      modifies this`attempts, this`checks, lineage, recovery`authoritativeAttempt, recovery`recoveryAuthorized
      ensures old(attempts) <= attempts && |attempts| <= old(|attempts|) + AttemptLimit(w)
      ensures |attempts| > old(|attempts|) ==> replayed
      ensures replayed ==> w.compaction.Compacted? && w.rebuildFits
      ensures Quiet(attempts, old(|attempts|), |attempts| - 1)
      ensures forall k | old(|attempts|) <= k < |attempts| :: attempts[k].identity.recoveryAttempt == 1
      ensures outcome.Result? ==>
        && |attempts| > old(|attempts|) && outcome.response == w.reply(|attempts| - 1)
        && !IsOverflow(ClassOf(outcome, request))
    {
      hide ClassifyResponse, IsOverflow, Quiet, StoppedBefore, NoCheckpoint, AttemptLimit, Dispatched;
      QuietNothing(attempts);
      var selected := w.selected(checks);
      checks := checks + 1;
      if !RequestIdentityIsActive(request, selected) || w.compaction.CompactionRefused? {
        return Failed, false;
      }
      lineage.Adopt(w.compaction.entryId);
      var rebuilt := new CompletionRequest(lineage, request.provider, request.model);
      if !w.rebuildFits {
        return Failed, false;
      }
      recovery.authoritativeAttempt := 1;
      recovery.recoveryAuthorized := true;
      rebuilt.identity := rebuilt.identity.(providerAttempt := 1, recoveryAttempt := 1);
      selected := w.selected(checks);
      checks := checks + 1;
      if !RequestIdentityIsActive(rebuilt, selected) {
        return Failed, false;
      }
      replayed := true;
      outcome := CompleteWithRetry(rebuilt);
      if IsOverflow(ClassOf(outcome, rebuilt)) {
        outcome := Failed;
      }
    }

    /**
     * The main request of a prompt: at most one recovery, at most twice the attempt limit, no attempt after any earlier
     * one has dispatched a tool, and a replay only of a request that the decision allows. A second overflow is final.
     */
    method CompleteWithProviderOverflowRecovery(request: CompletionRequest)
      returns (outcome: Outcome, replayed: bool, ghost refusal: Option<Refusal>, ghost first: nat)
      requires attempts == [] && !recovery.consumed && !recovery.recoveryAuthorized
      requires !request.toolSideEffectsStarted
      requires request.identity ==
        Identity(lineage.runId, request.provider, request.model, lineage.activeParent, 0, lineage.generation, 0)
      modifies this`attempts, this`checks, lineage, recovery, request
      ensures first <= AttemptLimit(w) && first <= |attempts| <= first + AttemptLimit(w)
      ensures Quiet(attempts, 0, |attempts| - 1)
      ensures |attempts| > first ==> replayed
      ensures forall k | 0 <= k < |attempts| :: attempts[k].identity.recoveryAttempt == (if k < first then 0 else 1)
      ensures recovery.consumed <==> refusal.None?
      ensures replayed ==> refusal.None? && w.compaction.Compacted? && w.rebuildFits
      ensures RefusalIsExplained(request, attempts, first, old(checks), refusal)
      ensures refusal.None? <==>
        !StoppedBefore(attempts, 0, first) && ReplayIsSafe(request, attempts, first, old(checks))
      ensures outcome.Result? ==>
        && |attempts| > 0 && outcome.response == w.reply(|attempts| - 1) && (|attempts| > first || refusal.Some?)
        && !IsOverflow(ClassOf(outcome, request))
    {
      hide AttemptLimit, ClassifyResponse, NoCheckpoint;
      var response := CompleteWithRetry(request);
      first := |attempts|;
      ghost var before := attempts;
      var category := ClassOf(response, request);
      var selected := w.selected(checks);
      checks := checks + 1;
      var decision := DecideProviderOverflowRecovery(request, category, selected);
      refusal := decision;
      if decision.Some? {
        outcome := if IsOverflow(category) then Failed else response;
        return outcome, false, refusal, first;
      }
      var won := recovery.Reserve();
      outcome, replayed := RecoverProviderContextOverflow(request);
      assert attempts[..first] == before;
      QuietTogether(attempts, first);
    }

    /** The overflow was reported for the selected model by an attempt that dispatched no tool and advanced nothing. */
    predicate ReplayIsSafe(request: CompletionRequest, attempts: seq<Attempt>, first: nat, check: nat) {
      && 1 <= first <= |attempts| && !attempts[first - 1].dispatched
      && IsOverflow(ClassifyResponse(w.reply(first - 1), request.provider, w.maxTokens))
      && w.selected(check) == Some((request.provider, request.model))
      && NoCheckpoint(0, first)
    }

    /**
     * What each decision means for this prompt. The runtime gives three reasons only: a request whose identity is still
     * active has an unchanged lineage, its recovery is unused, and there is always history to try to compact.
     */
    predicate RefusalIsExplained(
      request: CompletionRequest, attempts: seq<Attempt>, first: nat, check: nat, refusal: Option<Refusal>)
    {
      && first <= |attempts|
      && var overflowed := !StoppedBefore(attempts, 0, first) && first > 0
           && IsOverflow(ClassifyResponse(w.reply(first - 1), request.provider, w.maxTokens));
         var current := w.selected(check) == Some((request.provider, request.model)) && NoCheckpoint(0, first);
         match refusal
         case None => overflowed && ReplayIsSafe(request, attempts, first, check)
         case Some(IneligibleClass) => !overflowed
         case Some(StaleIdentity) => overflowed && !current
         case Some(SideEffectsStarted) => overflowed && current && attempts[first - 1].dispatched
         case Some(_) => false
    }
  }

  /** The newest of the attempts since `from`, if there is one, dispatched a tool. */
  predicate Dispatched(attempts: seq<Attempt>, from: nat) {
    |attempts| > from && attempts[|attempts| - 1].dispatched
  }

  lemma QuietNothing(attempts: seq<Attempt>)
    ensures Quiet(attempts, |attempts|, |attempts| - 1)
  {
  }

  lemma QuietTogether(attempts: seq<Attempt>, first: nat)
    requires 1 <= first <= |attempts| && Quiet(attempts, 0, first - 1) && !attempts[first - 1].dispatched
    requires Quiet(attempts, first, |attempts| - 1)
    ensures Quiet(attempts, 0, |attempts| - 1)
  {
  }

  /** None of these attempts dispatched a tool. */
  predicate Quiet(attempts: seq<Attempt>, from: nat, to: int) {
    forall k | from <= k < to && k < |attempts| :: !attempts[k].dispatched
  }
}
