/**
 * Steering under concurrency (internal/assistant/steering_inbox.go, internal/assistant/round_persistence.go,
 * internal/assistant/runtime.go).
 *
 * Any number of runs and of steering callers are interleaved. An operation that releases the registry's lock between
 * finding the inbox and using it takes two steps, so other steps may come between them. Each run drains, checkpoints,
 * restores and closes in its own thread; steering callers accept at any time.
 */
module SteeringRuns {
  import opened Text
  import opened Steering

  datatype Fate = Durable | Lost | Returned

  datatype Phase =
    | Idle
    | DrainFound(target: Option<nat>)
    | Persisting(left: seq<Draft>)
    | Failed(left: seq<Draft>)
    | RestoreFound(left: seq<Draft>, target: Option<nat>)
    | Removed
    | Finished

  /** One registered run; its accepted drafts and their fates are recorded in acceptance order. */
  datatype Run = Run(
    session: string,
    inbox: Inbox,
    phase: Phase,
    accepted: seq<Draft>,
    settled: seq<(Draft, Fate)>,
    drainedAt: nat
  )

  /** A steering caller that has found an inbox and not yet used it. */
  datatype Caller = Caller(target: nat, runId: string, draft: Draft)

  datatype State = State(registry: map<string, nat>, runs: seq<Run>, callers: seq<Caller>)

  /** What a run's own thread does next. */
  datatype Act =
    | FindToDrain
    | Drain
    | DrainFinal
    | SettleIfEmpty
    | PersistDraft
    | CheckpointDone
    | CheckpointFails
    | FindToRestore
    | Restore
    | Remove
    | Close

  datatype Event =
    | Register(session: string, runId: string)
    | FindToAccept(session: string, caller: string, draft: Draft)
    | Accept(index: nat)
    | Thread(run: nat, act: Act)

  function Find(s: State, session: string): Option<nat> {
    if session in s.registry then Some(s.registry[session]) else None
  }

  function WithRun(s: State, i: nat, run: Run): State
    requires i < |s.runs|
  {
    s.(runs := s.runs[i := run])
  }

  function Settle(drafts: seq<Draft>, fate: Fate): (r: seq<(Draft, Fate)>)
    ensures |r| == |drafts| && forall k | 0 <= k < |r| :: r[k] == (drafts[k], fate)
  {
    seq(|drafts|, k requires 0 <= k < |drafts| => (drafts[k], fate))
  }

  function DraftsOf(settled: seq<(Draft, Fate)>): (r: seq<Draft>)
    ensures |r| == |settled| && forall k | 0 <= k < |r| :: r[k] == settled[k].0
  {
    seq(|settled|, k requires 0 <= k < |settled| => settled[k].0)
  }

  /** A run ID is the ID of the user entry that started the run, so it is registered at most once. */
  function RegisterStep(s: State, session: string, runId: string, capacity: nat): State {
    if session in s.registry || exists i | 0 <= i < |s.runs| :: s.runs[i].inbox.runId == runId then s
    else State(
      s.registry[session := |s.runs|],
      s.runs + [Run(session, NewInbox(runId, capacity), Idle, [], [], 0)],
      s.callers)
  }

  function AcceptStep(s: State, c: nat): State {
    if c >= |s.callers| || s.callers[c].target >= |s.runs| then s
    else
      var caller := s.callers[c];
      var run := s.runs[caller.target];
      var next := if AcceptError(run.inbox, caller.runId).Some? then run
        else run.(inbox := Accepted(run.inbox, caller.runId, caller.draft), accepted := run.accepted + [caller.draft]);
      WithRun(s, caller.target, next).(callers := s.callers[..c] + s.callers[c + 1..])
  }

  /** What the run's thread does next; `other` is the inbox that it found, which need not be its own. */
  function DrainStep(s: State, i: nat): State
    requires i < |s.runs|
  {
    var run := s.runs[i];
    if !run.phase.DrainFound? then s
    else if run.phase.target.None? || run.phase.target.value >= |s.runs| then WithRun(s, i, run.(phase := Idle))
    else
      var t := run.phase.target.value;
      var found := s.runs[t];
      var id := run.inbox.runId;
      if Rejection(found.inbox, id).Some? then WithRun(s, i, run.(phase := Idle))
      else
        var drained := WithRun(s, t, found.(inbox := Drained(found.inbox, id)));
        var self := drained.runs[i];
        WithRun(drained, i, self.(
          phase := if found.inbox.drafts == [] then Idle else Persisting(found.inbox.drafts),
          drainedAt := |self.accepted|))
  }

  /** Both halves of the last checkpoint happen under the registry's lock. */
  function DrainFinalStep(s: State, i: nat): State
    requires i < |s.runs|
  {
    var run := s.runs[i];
    var found := Find(s, run.session);
    if !run.phase.Idle? || found != Some(i) || Rejection(run.inbox, run.inbox.runId).Some? then s
    else if run.inbox.drafts == [] then SettleStep(s, i)
    else WithRun(s, i, run.(
      inbox := Drained(run.inbox, run.inbox.runId), phase := Persisting(run.inbox.drafts), drainedAt := |run.accepted|))
  }

  function SettleStep(s: State, i: nat): State
    requires i < |s.runs|
  {
    var run := s.runs[i];
    if !run.phase.Idle? || Find(s, run.session) != Some(i) || Rejection(run.inbox, run.inbox.runId).Some?
       || run.inbox.drafts != [] then s
    else WithRun(s, i, run.(inbox := Shut(run.inbox, run.inbox.runId), phase := Finished))
      .(registry := s.registry - {run.session})
  }

  function PersistStep(run: Run): Run {
    if run.phase.Persisting? && run.phase.left != [] then
      run.(phase := Persisting(run.phase.left[1..]), settled := run.settled + [(run.phase.left[0], Durable)])
    else run
  }

  function RestoreStep(s: State, i: nat): State
    requires i < |s.runs|
  {
    var run := s.runs[i];
    if !run.phase.RestoreFound? then s
    else
      var left := run.phase.left;
      var lost := run.(phase := Idle, settled := run.settled + Settle(left, Lost));
      if run.phase.target.None? || run.phase.target.value >= |s.runs| then WithRun(s, i, lost)
      else
        var t := run.phase.target.value;
        var found := s.runs[t];
        var id := run.inbox.runId;
        if RestoreError(found.inbox, id, left).Some? then WithRun(s, i, lost)
        else
          var restored := WithRun(s, t, found.(inbox := Restored(found.inbox, id, left)));
          WithRun(restored, i, restored.runs[i].(phase := Idle))
  }

  function RemoveStep(s: State, i: nat): State
    requires i < |s.runs|
  {
    var run := s.runs[i];
    if !run.phase.Idle? || Find(s, run.session) != Some(i) then s
    else WithRun(s, i, run.(phase := Removed)).(registry := s.registry - {run.session})
  }

  function CloseStep(run: Run): Run {
    if !run.phase.Removed? || Rejection(run.inbox, run.inbox.runId).Some? then run
    else run.(
      inbox := Shut(run.inbox, run.inbox.runId), phase := Finished,
      settled := run.settled + Settle(run.inbox.drafts, Returned))
  }

  function FindStep(s: State, run: Run): Run {
    match run.phase
    case Idle => run.(phase := DrainFound(Find(s, run.session)))
    case Failed(left) => run.(phase := RestoreFound(left, Find(s, run.session)))
    case _ => run
  }

  function CheckpointStep(run: Run, fails: bool): Run {
    if !run.phase.Persisting? then run
    else if fails then run.(phase := Failed(run.phase.left))
    else if run.phase.left == [] then run.(phase := Idle)
    else run
  }

  function ThreadStep(s: State, i: nat, act: Act): State
    requires i < |s.runs|
  {
    var run := s.runs[i];
    match act
    case FindToDrain => if run.phase.Idle? then WithRun(s, i, FindStep(s, run)) else s
    case Drain => DrainStep(s, i)
    case DrainFinal => DrainFinalStep(s, i)
    case SettleIfEmpty => SettleStep(s, i)
    case PersistDraft => WithRun(s, i, PersistStep(run))
    case CheckpointDone => WithRun(s, i, CheckpointStep(run, false))
    case CheckpointFails => WithRun(s, i, CheckpointStep(run, true))
    case FindToRestore => if run.phase.Failed? then WithRun(s, i, FindStep(s, run)) else s
    case Restore => RestoreStep(s, i)
    case Remove => RemoveStep(s, i)
    case Close => WithRun(s, i, CloseStep(run))
  }

  function FindToAcceptStep(s: State, session: string, runId: string, draft: Draft): State {
    match Find(s, session)
    case None => s
    case Some(t) => s.(callers := s.callers + [Caller(t, runId, draft)])
  }

  function Step(s: State, e: Event, capacity: nat): State {
    match e
    case Register(session, runId) => RegisterStep(s, session, runId, capacity)
    case FindToAccept(session, runId, draft) => FindToAcceptStep(s, session, runId, draft)
    case Accept(c) => AcceptStep(s, c)
    case Thread(i, act) => if i < |s.runs| then ThreadStep(s, i, act) else s
  }

  function Execute(events: seq<Event>, capacity: nat): State {
    if events == [] then State(map[], [], [])
    else Step(Execute(events[..|events| - 1], capacity), events[|events| - 1], capacity)
  }

  // ----- the invariant -----

  /** Drafts that the run has drained and that are neither durable nor back in the inbox. */
  function InFlight(phase: Phase): seq<Draft> {
    match phase
    case Persisting(left) => left
    case Failed(left) => left
    case RestoreFound(left, _) => left
    case _ => []
  }

  predicate Open(phase: Phase) {
    phase != Removed && phase != Finished
  }

  /** Every accepted draft is accounted for exactly once, in acceptance order. */
  ghost predicate Conserved(run: Run) {
    DraftsOf(run.settled) + InFlight(run.phase) + run.inbox.drafts == run.accepted
  }

  ghost predicate Owns(registry: map<string, nat>, session: string, i: nat) {
    session in registry && registry[session] == i
  }

  ghost predicate RunIsGood(registry: map<string, nat>, run: Run, i: nat, capacity: nat) {
    && run.inbox.capacity == capacity && |run.inbox.drafts| <= capacity
    && (Open(run.phase) <==> Owns(registry, run.session, i))
    && (run.inbox.closed <==> run.phase == Finished)
    && (run.phase == Finished ==> run.inbox.drafts == [])
    && (run.phase.DrainFound? || run.phase.RestoreFound? ==> run.phase.target == Some(i))
    && (InFlight(run.phase) != [] ==> |run.settled| + |InFlight(run.phase)| == run.drainedAt)
    && |InFlight(run.phase)| <= capacity
    && Conserved(run)
  }

  ghost predicate RunsAreGood(s: State, capacity: nat) {
    forall i | 0 <= i < |s.runs| :: RunIsGood(s.registry, s.runs[i], i, capacity)
  }

  ghost predicate RunIdsDiffer(runs: seq<Run>) {
    forall i, j | 0 <= i < j < |runs| :: runs[i].inbox.runId != runs[j].inbox.runId
  }

  /** The registry names existing runs, each under its own session. */
  ghost predicate RegistryIsGood(registry: map<string, nat>, runs: seq<Run>) {
    forall session | session in registry ::
      registry[session] < |runs| && runs[registry[session]].session == session
  }

  ghost predicate Good(s: State, capacity: nat) {
    && RegistryIsGood(s.registry, s.runs)
    && RunsAreGood(s, capacity)
    && (forall c | 0 <= c < |s.callers| :: s.callers[c].target < |s.runs|)
    && RunIdsDiffer(s.runs)
  }

  /** A step of run i that leaves the registry alone. */
  lemma OwnStepKeepsGood(s: State, i: nat, run: Run, capacity: nat)
    requires Good(s, capacity) && i < |s.runs|
    requires run.session == s.runs[i].session && run.inbox.runId == s.runs[i].inbox.runId
    requires RunIsGood(s.registry, run, i, capacity)
    ensures Good(WithRun(s, i, run), capacity)
  {
    hide RunIsGood;
  }

  /** A step of run i that removes its inbox from the registry. */
  lemma LeavingKeepsGood(s: State, i: nat, run: Run, capacity: nat)
    requires Good(s, capacity) && i < |s.runs| && Owns(s.registry, s.runs[i].session, i)
    requires run.session == s.runs[i].session && run.inbox.runId == s.runs[i].inbox.runId
    requires RunIsGood(s.registry - {run.session}, run, i, capacity)
    ensures Good(WithRun(s, i, run).(registry := s.registry - {run.session}), capacity)
  {
    hide RunIsGood;
    var registry := s.registry - {run.session};
    forall j | 0 <= j < |s.runs| && j != i ensures RunIsGood(registry, s.runs[j], j, capacity) {
      StaysGood(s.registry, registry, s.runs[j], j, capacity);
    }
  }

  lemma RegisterKeepsGood(s: State, session: string, runId: string, capacity: nat)
    requires Good(s, capacity)
    ensures Good(RegisterStep(s, session, runId, capacity), capacity)
  {
    hide RunsAreGood, RunIdsDiffer, RegistryIsGood;
    if session !in s.registry && forall i | 0 <= i < |s.runs| :: s.runs[i].inbox.runId != runId {
      var run := Run(session, NewInbox(runId, capacity), Idle, [], [], 0);
      RegisteredRunsAreGood(s, session, runId, capacity);
      NewIdDiffers(s.runs, run);
      AddedToRegistry(s.registry, s.runs, run);
    }
  }

  lemma NewIdDiffers(runs: seq<Run>, run: Run)
    requires RunIdsDiffer(runs) && forall i | 0 <= i < |runs| :: runs[i].inbox.runId != run.inbox.runId
    ensures RunIdsDiffer(runs + [run])
  {
  }

  lemma AddedToRegistry(registry: map<string, nat>, runs: seq<Run>, run: Run)
    requires RegistryIsGood(registry, runs)
    ensures RegistryIsGood(registry[run.session := |runs|], runs + [run])
  {
  }

  lemma RegisteredRunsAreGood(s: State, session: string, runId: string, capacity: nat)
    requires session !in s.registry && RunsAreGood(s, capacity)
    ensures RunsAreGood(State(
      s.registry[session := |s.runs|],
      s.runs + [Run(session, NewInbox(runId, capacity), Idle, [], [], 0)],
      s.callers), capacity)
  {
    hide RunIsGood;
    var registry := s.registry[session := |s.runs|];
    NewRunIsGood(registry, session, runId, |s.runs|, capacity);
    forall j | 0 <= j < |s.runs| ensures RunIsGood(registry, s.runs[j], j, capacity) {
      assert RunIsGood(s.registry, s.runs[j], j, capacity);
      StaysGood(s.registry, registry, s.runs[j], j, capacity);
    }
  }

  lemma StaysGood(before: map<string, nat>, after: map<string, nat>, run: Run, i: nat, capacity: nat)
    requires RunIsGood(before, run, i, capacity) && (Owns(after, run.session, i) <==> Owns(before, run.session, i))
    ensures RunIsGood(after, run, i, capacity)
  {
    hide Conserved;
  }

  lemma NewRunIsGood(registry: map<string, nat>, session: string, runId: string, i: nat, capacity: nat)
    requires Owns(registry, session, i)
    ensures RunIsGood(registry, Run(session, NewInbox(runId, capacity), Idle, [], [], 0), i, capacity)
  {
  }

  lemma AcceptKeepsGood(s: State, c: nat, capacity: nat)
    requires Good(s, capacity)
    ensures Good(AcceptStep(s, c), capacity)
  {
    if c < |s.callers| && s.callers[c].target < |s.runs| {
      var caller := s.callers[c];
      var run := s.runs[caller.target];
      assert RunIsGood(s.registry, run, caller.target, capacity);
      var next := AcceptStep(s, c).runs[caller.target];
      assert RunIsGood(s.registry, next, caller.target, capacity) by {
        if AcceptError(run.inbox, caller.runId).None? {
          var before := DraftsOf(run.settled) + InFlight(run.phase);
          assert before + (run.inbox.drafts + [caller.draft]) == (before + run.inbox.drafts) + [caller.draft];
        }
      }
      OwnStepKeepsGood(s, caller.target, next, capacity);
    }
  }

  lemma SettleMore(settled: seq<(Draft, Fate)>, drafts: seq<Draft>, fate: Fate)
    ensures DraftsOf(settled + Settle(drafts, fate)) == DraftsOf(settled) + drafts
  {
  }

  lemma DrainKeepsGood(s: State, i: nat, capacity: nat)
    requires Good(s, capacity) && i < |s.runs|
    ensures Good(DrainStep(s, i), capacity)
  {
    var run := s.runs[i];
    assert RunIsGood(s.registry, run, i, capacity);
    if run.phase.DrainFound? {
      var next := DrainStep(s, i).runs[i];
      assert DrainStep(s, i).runs == s.runs[i := next];
      assert DraftsOf(run.settled) + [] + run.inbox.drafts == DraftsOf(run.settled) + run.inbox.drafts + [];
      OwnStepKeepsGood(s, i, next, capacity);
    }
  }

  lemma DrainFinalKeepsGood(s: State, i: nat, capacity: nat)
    requires Good(s, capacity) && i < |s.runs|
    ensures Good(DrainFinalStep(s, i), capacity)
  {
    var run := s.runs[i];
    assert RunIsGood(s.registry, run, i, capacity);
    if run.phase.Idle? {
      if run.inbox.drafts == [] {
        SettleKeepsGood(s, i, capacity);
      } else {
        assert DraftsOf(run.settled) + [] + run.inbox.drafts == DraftsOf(run.settled) + run.inbox.drafts + [];
        OwnStepKeepsGood(s, i, DrainFinalStep(s, i).runs[i], capacity);
      }
    }
  }

  lemma SettleKeepsGood(s: State, i: nat, capacity: nat)
    requires Good(s, capacity) && i < |s.runs|
    ensures Good(SettleStep(s, i), capacity)
  {
    assert RunIsGood(s.registry, s.runs[i], i, capacity);
    if SettleStep(s, i) != s {
      LeavingKeepsGood(s, i, SettleStep(s, i).runs[i], capacity);
    }
  }

  lemma RemoveKeepsGood(s: State, i: nat, capacity: nat)
    requires Good(s, capacity) && i < |s.runs|
    ensures Good(RemoveStep(s, i), capacity)
  {
    assert RunIsGood(s.registry, s.runs[i], i, capacity);
    if RemoveStep(s, i) != s {
      LeavingKeepsGood(s, i, RemoveStep(s, i).runs[i], capacity);
    }
  }

  /** Restoring puts drained drafts back in front, or gives them up when the inbox has filled meanwhile. */
  lemma RestoreKeepsGood(s: State, i: nat, capacity: nat)
    requires Good(s, capacity) && i < |s.runs|
    ensures Good(RestoreStep(s, i), capacity)
  {
    var run := s.runs[i];
    assert RunIsGood(s.registry, run, i, capacity);
    if run.phase.RestoreFound? {
      hide RunIsGood, Good, RestoreStep, RestoredRun;
      Restores(s, i, capacity);
      RestoredRunIsGood(s.registry, run, i, capacity);
      OwnStepKeepsGood(s, i, RestoredRun(run), capacity);
    }
  }

  /** The run after a restore into its own inbox. */
  function RestoredRun(run: Run): Run
    requires run.phase.RestoreFound?
  {
    var left := run.phase.left;
    var refused := RestoreError(run.inbox, run.inbox.runId, left).Some?;
    run.(
      inbox := Restored(run.inbox, run.inbox.runId, left),
      phase := Idle,
      settled := run.settled + (if refused then Settle(left, Lost) else []))
  }

  lemma RestoredRunIsGood(registry: map<string, nat>, run: Run, i: nat, capacity: nat)
    requires RunIsGood(registry, run, i, capacity) && run.phase.RestoreFound?
    ensures RunIsGood(registry, RestoredRun(run), i, capacity)
    ensures RestoredRun(run).session == run.session && RestoredRun(run).inbox.runId == run.inbox.runId
  {
    hide Owns;
    SettleMore(run.settled, run.phase.left, Lost);
    var settled := DraftsOf(run.settled);
    assert run.settled + [] == run.settled;
    assert settled + run.phase.left + run.inbox.drafts == settled + [] + (run.phase.left + run.inbox.drafts);
    assert (settled + run.phase.left) + [] + run.inbox.drafts == settled + run.phase.left + run.inbox.drafts;
  }

  lemma PersistKeepsGood(s: State, i: nat, capacity: nat)
    requires Good(s, capacity) && i < |s.runs|
    ensures Good(WithRun(s, i, PersistStep(s.runs[i])), capacity)
  {
    var run := s.runs[i];
    assert RunIsGood(s.registry, run, i, capacity);
    var next := PersistStep(run);
    if next != run {
      var left := run.phase.left;
      assert DraftsOf(next.settled) == DraftsOf(run.settled) + [left[0]];
      assert DraftsOf(run.settled) + [left[0]] + left[1..] == DraftsOf(run.settled) + left;
    }
    OwnStepKeepsGood(s, i, next, capacity);
  }

  lemma CloseKeepsGood(s: State, i: nat, capacity: nat)
    requires Good(s, capacity) && i < |s.runs|
    ensures Good(WithRun(s, i, CloseStep(s.runs[i])), capacity)
  {
    var run := s.runs[i];
    assert RunIsGood(s.registry, run, i, capacity);
    SettleMore(run.settled, run.inbox.drafts, Returned);
    var settled := DraftsOf(run.settled);
    assert (settled + run.inbox.drafts) + [] + [] == settled + [] + run.inbox.drafts;
    OwnStepKeepsGood(s, i, CloseStep(run), capacity);
  }

  /** The steps that only move the run's thread. */
  lemma MovesKeepGood(s: State, i: nat, capacity: nat, fails: bool)
    requires Good(s, capacity) && i < |s.runs|
    ensures Good(WithRun(s, i, FindStep(s, s.runs[i])), capacity)
    ensures Good(WithRun(s, i, CheckpointStep(s.runs[i], fails)), capacity)
  {
    assert RunIsGood(s.registry, s.runs[i], i, capacity);
    OwnStepKeepsGood(s, i, FindStep(s, s.runs[i]), capacity);
    OwnStepKeepsGood(s, i, CheckpointStep(s.runs[i], fails), capacity);
  }

  lemma ThreadKeepsGood(s: State, i: nat, act: Act, capacity: nat)
    requires Good(s, capacity) && i < |s.runs|
    ensures Good(ThreadStep(s, i, act), capacity)
  {
    hide Good, WithRun, DrainStep, DrainFinalStep, SettleStep, RestoreStep, RemoveStep, PersistStep, CloseStep,
      FindStep, CheckpointStep;
    match act
    case FindToDrain => MovesKeepGood(s, i, capacity, false);
    case Drain => DrainKeepsGood(s, i, capacity);
    case DrainFinal => DrainFinalKeepsGood(s, i, capacity);
    case SettleIfEmpty => SettleKeepsGood(s, i, capacity);
    case PersistDraft => PersistKeepsGood(s, i, capacity);
    case CheckpointDone => MovesKeepGood(s, i, capacity, false);
    case CheckpointFails => MovesKeepGood(s, i, capacity, true);
    case FindToRestore => MovesKeepGood(s, i, capacity, false);
    case Restore => RestoreKeepsGood(s, i, capacity);
    case Remove => RemoveKeepsGood(s, i, capacity);
    case Close => CloseKeepsGood(s, i, capacity);
  }

  lemma FindToAcceptKeepsGood(s: State, session: string, runId: string, draft: Draft, capacity: nat)
    requires Good(s, capacity)
    ensures Good(FindToAcceptStep(s, session, runId, draft), capacity)
  {
    hide RunIsGood;
  }

  lemma StepKeepsGood(s: State, e: Event, capacity: nat)
    requires Good(s, capacity)
    ensures Good(Step(s, e, capacity), capacity)
  {
    hide Good, ThreadStep, AcceptStep, RegisterStep, FindToAcceptStep;
    match e
    case Register(session, runId) => RegisterKeepsGood(s, session, runId, capacity);
    case FindToAccept(session, runId, draft) => FindToAcceptKeepsGood(s, session, runId, draft, capacity);
    case Accept(c) => AcceptKeepsGood(s, c, capacity);
    case Thread(i, act) =>
      if i < |s.runs| {
        ThreadKeepsGood(s, i, act, capacity);
      }
  }

  /** In every interleaving, every accepted draft is settled, in flight or waiting, exactly once and in order. */
  lemma {:induction false} SteeringIsConserved(events: seq<Event>, capacity: nat)
    ensures Good(Execute(events, capacity), capacity)
  {
    hide RunIsGood, Step;
    if events != [] {
      SteeringIsConserved(events[..|events| - 1], capacity);
      StepKeepsGood(Execute(events[..|events| - 1], capacity), events[|events| - 1], capacity);
    }
  }

  // ----- what single steps do in a state that executions reach -----

  /** Only run i changes, and it stays the same run. */
  ghost predicate OnlyRun(s: State, t: State, i: nat) {
    && i < |s.runs| == |t.runs|
    && t.runs == s.runs[i := t.runs[i]]
    && t.runs[i].session == s.runs[i].session && t.runs[i].inbox.runId == s.runs[i].inbox.runId
  }

  /** The session's inbox is that of its run while the run has not left. */
  lemma OpenRunIsFound(s: State, i: nat, capacity: nat)
    requires Good(s, capacity) && i < |s.runs|
    ensures Open(s.runs[i].phase) ==> Find(s, s.runs[i].session) == Some(i)
    ensures s.runs[i].phase != Finished ==> Rejection(s.runs[i].inbox, s.runs[i].inbox.runId).None?
  {
    assert RunIsGood(s.registry, s.runs[i], i, capacity);
    hide Good, Conserved;
  }

  lemma Drains(s: State, i: nat, capacity: nat)
    requires Good(s, capacity) && i < |s.runs| && s.runs[i].phase.DrainFound?
    ensures var t := DrainStep(s, i);
      var inbox := s.runs[i].inbox;
      && OnlyRun(s, t, i) && t.registry == s.registry
      && t.runs[i].inbox == Drained(inbox, inbox.runId)
      && t.runs[i].phase == if inbox.drafts == [] then Idle else Persisting(inbox.drafts)
  {
    assert RunIsGood(s.registry, s.runs[i], i, capacity);
    hide Good, Conserved, Owns;
  }

  lemma DrainsFinally(s: State, i: nat, capacity: nat)
    requires Good(s, capacity) && i < |s.runs| && s.runs[i].phase.Idle?
    ensures var t := DrainFinalStep(s, i);
      var inbox := s.runs[i].inbox;
      && OnlyRun(s, t, i)
      && t.registry == (if inbox.drafts == [] then s.registry - {s.runs[i].session} else s.registry)
      && t.runs[i].inbox == (if inbox.drafts == [] then Shut(inbox, inbox.runId) else Drained(inbox, inbox.runId))
      && t.runs[i].phase == if inbox.drafts == [] then Finished else Persisting(inbox.drafts)
  {
    OpenRunIsFound(s, i, capacity);
    hide Good;
  }

  lemma Settles(s: State, i: nat, capacity: nat)
    requires Good(s, capacity) && i < |s.runs| && s.runs[i].phase.Idle?
    ensures var t := SettleStep(s, i);
      var inbox := s.runs[i].inbox;
      if inbox.drafts != [] then t == s
      else
        && OnlyRun(s, t, i) && t.registry == s.registry - {s.runs[i].session}
        && t.runs[i].inbox == Shut(inbox, inbox.runId) && t.runs[i].phase == Finished
  {
    OpenRunIsFound(s, i, capacity);
    hide Good;
  }

  lemma Restores(s: State, i: nat, capacity: nat)
    requires Good(s, capacity) && i < |s.runs| && s.runs[i].phase.RestoreFound?
    ensures RestoreStep(s, i) == WithRun(s, i, RestoredRun(s.runs[i]))
    ensures OnlyRun(s, RestoreStep(s, i), i)
  {
    assert RunIsGood(s.registry, s.runs[i], i, capacity);
    assert s.runs[i].settled + [] == s.runs[i].settled;
    assert RestoreStep(s, i).runs == s.runs[i := RestoredRun(s.runs[i])];
    hide Good, Conserved, Owns;
  }

  lemma Removes(s: State, i: nat, capacity: nat)
    requires Good(s, capacity) && i < |s.runs| && s.runs[i].phase.Idle?
    ensures var t := RemoveStep(s, i);
      && OnlyRun(s, t, i) && t.registry == s.registry - {s.runs[i].session}
      && t.runs[i].inbox == s.runs[i].inbox && t.runs[i].phase == Removed
  {
    OpenRunIsFound(s, i, capacity);
    hide Good;
  }

  lemma Closes(s: State, i: nat, capacity: nat)
    requires Good(s, capacity) && i < |s.runs| && s.runs[i].phase.Removed?
    ensures var t := WithRun(s, i, CloseStep(s.runs[i]));
      var inbox := s.runs[i].inbox;
      && OnlyRun(s, t, i) && t.registry == s.registry
      && t.runs[i].inbox == Shut(inbox, inbox.runId) && t.runs[i].phase == Finished
      && t.runs[i].settled == s.runs[i].settled + Settle(inbox.drafts, Returned)
  {
    OpenRunIsFound(s, i, capacity);
    hide Good;
  }

  /** The steps of a run's thread that touch no inbox. */
  predicate IsInternal(act: Act) {
    act in {FindToDrain, PersistDraft, CheckpointDone, CheckpointFails, FindToRestore}
  }

  lemma MovesOnly(s: State, i: nat, act: Act)
    requires i < |s.runs| && IsInternal(act)
    ensures var t := ThreadStep(s, i, act);
      OnlyRun(s, t, i) && t.registry == s.registry && t.runs[i].inbox == s.runs[i].inbox
  {
  }

  lemma Accepts(s: State, c: nat, capacity: nat)
    requires Good(s, capacity) && c < |s.callers|
    ensures var t := AcceptStep(s, c);
      var caller := s.callers[c];
      && caller.target < |s.runs| && OnlyRun(s, t, caller.target) && t.registry == s.registry
      && t.runs[caller.target].inbox == Accepted(s.runs[caller.target].inbox, caller.runId, caller.draft)
      && t.runs[caller.target].accepted == s.runs[caller.target].accepted +
        (if AcceptError(s.runs[caller.target].inbox, caller.runId).None? then [caller.draft] else [])
  {
    hide RunIsGood;
  }

  // ----- consequences -----

  /** When a run has closed or settled its inbox, each draft that it accepted has exactly one fate, in order. */
  lemma FinishedRunsSettleEverything(events: seq<Event>, capacity: nat, i: nat)
    requires i < |Execute(events, capacity).runs|
    ensures var run := Execute(events, capacity).runs[i];
      run.phase == Finished ==> DraftsOf(run.settled) == run.accepted
  {
    SteeringIsConserved(events, capacity);
    var s := Execute(events, capacity);
    assert RunIsGood(s.registry, s.runs[i], i, capacity);
    hide Execute;
  }

  /** The drafts accepted since the run last drained its inbox. */
  function AcceptedSinceDrain(run: Run): seq<Draft>
    requires run.drainedAt <= |run.accepted|
  {
    run.accepted[run.drainedAt..]
  }

  lemma Execute1(events: seq<Event>, e: Event, capacity: nat)
    ensures Execute(events + [e], capacity) == Step(Execute(events, capacity), e, capacity)
  {
    assert (events + [e])[..|events|] == events;
  }

  /**
   * A restore is refused exactly when the drafts accepted since the drain and those to be restored exceed the capacity,
   * and then just these are lost. Otherwise they stand in front of the newer ones again.
   */
  lemma RestoreRefusedExactlyAtCapacity(events: seq<Event>, capacity: nat, i: nat)
    requires i < |Execute(events, capacity).runs| && Execute(events, capacity).runs[i].phase.RestoreFound?
    requires Execute(events, capacity).runs[i].phase.left != []
    ensures var run := Execute(events, capacity).runs[i];
      var next := Execute(events + [Thread(i, Restore)], capacity).runs[i];
      var left := run.phase.left;
      && run.drainedAt <= |run.accepted|
      && if |AcceptedSinceDrain(run)| + |left| > capacity then
           && next.settled == run.settled + Settle(left, Lost)
           && next.inbox.drafts == AcceptedSinceDrain(run)
         else
           && next.settled == run.settled
           && next.inbox.drafts == left + AcceptedSinceDrain(run)
  {
    hide Execute, Good, RestoreStep;
    SteeringIsConserved(events, capacity);
    Execute1(events, Thread(i, Restore), capacity);
    var s := Execute(events, capacity);
    Restores(s, i, capacity);
    OpenRunIsFound(s, i, capacity);
    DrainedInOrder(s, i, capacity);
  }

  /** A run that holds drained drafts holds the accepted ones up to its drain, and its inbox the newer ones. */
  lemma DrainedInOrder(s: State, i: nat, capacity: nat)
    requires Good(s, capacity) && i < |s.runs| && InFlight(s.runs[i].phase) != []
    ensures var run := s.runs[i];
      run.drainedAt <= |run.accepted| && AcceptedSinceDrain(run) == run.inbox.drafts && run.inbox.capacity == capacity
  {
    var run := s.runs[i];
    assert RunIsGood(s.registry, run, i, capacity);
    hide Good, Owns;
    var before := DraftsOf(run.settled) + InFlight(run.phase);
    assert |before| == run.drainedAt;
    assert (before + run.inbox.drafts)[run.drainedAt..] == run.inbox.drafts;
  }

  /** Between two states the run settled nothing new as lost, and a closed inbox stayed as it was. */
  ghost predicate Steady(before: Run, after: Run) {
    && before.settled <= after.settled
    && (forall k | |before.settled| <= k < |after.settled| :: after.settled[k].1 != Lost)
    && (before.inbox.closed ==> after.inbox == before.inbox && after.accepted == before.accepted)
  }

  /** A step of run i leaves all other runs alone, and loses a draft only when it may. */
  ghost predicate StepIsSteady(s: State, t: State, i: nat, j: nat, mayLose: bool)
    requires j < |s.runs|
  {
    && |t.runs| == |s.runs|
    && (i != j ==> t.runs[j] == s.runs[j])
    && (!mayLose ==> Steady(s.runs[j], t.runs[j]))
    && (s.runs[j].inbox.closed ==> t.runs[j].inbox == s.runs[j].inbox && t.runs[j].accepted == s.runs[j].accepted)
  }

  lemma DrainIsSteady(s: State, i: nat, capacity: nat, j: nat)
    requires Good(s, capacity) && i < |s.runs| && j < |s.runs|
    ensures StepIsSteady(s, DrainStep(s, i), i, j, false)
  {
    assert RunIsGood(s.registry, s.runs[i], i, capacity);
    hide Good, Conserved, Owns;
  }

  lemma RestoreIsSteady(s: State, i: nat, capacity: nat, j: nat)
    requires Good(s, capacity) && i < |s.runs| && j < |s.runs|
    ensures StepIsSteady(s, RestoreStep(s, i), i, j, true)
  {
    assert RunIsGood(s.registry, s.runs[i], i, capacity);
    hide Good, Conserved, Owns;
  }

  lemma LeavingIsSteady(s: State, i: nat, j: nat)
    requires i < |s.runs| && j < |s.runs|
    ensures StepIsSteady(s, DrainFinalStep(s, i), i, j, false)
    ensures StepIsSteady(s, SettleStep(s, i), i, j, false)
    ensures StepIsSteady(s, RemoveStep(s, i), i, j, false)
    ensures StepIsSteady(s, WithRun(s, i, CloseStep(s.runs[i])), i, j, false)
  {
  }

  lemma MoveIsSteady(s: State, i: nat, j: nat, fails: bool)
    requires i < |s.runs| && j < |s.runs|
    ensures StepIsSteady(s, WithRun(s, i, FindStep(s, s.runs[i])), i, j, false)
    ensures StepIsSteady(s, WithRun(s, i, PersistStep(s.runs[i])), i, j, false)
    ensures StepIsSteady(s, WithRun(s, i, CheckpointStep(s.runs[i], fails)), i, j, false)
  {
  }

  /** Only a restore may lose a draft. */
  lemma ThreadIsSteady(s: State, i: nat, act: Act, capacity: nat, j: nat)
    requires Good(s, capacity) && i < |s.runs| && j < |s.runs|
    ensures StepIsSteady(s, ThreadStep(s, i, act), i, j, act == Restore)
  {
    hide Good, WithRun, DrainStep, DrainFinalStep, SettleStep, RestoreStep, RemoveStep, PersistStep, CloseStep,
      FindStep, CheckpointStep;
    DrainIsSteady(s, i, capacity, j);
    RestoreIsSteady(s, i, capacity, j);
    LeavingIsSteady(s, i, j);
    MoveIsSteady(s, i, j, false);
    MoveIsSteady(s, i, j, true);
  }

  lemma OtherStepIsSteady(s: State, e: Event, capacity: nat, j: nat)
    requires Good(s, capacity) && !e.Thread? && j < |s.runs|
    ensures |s.runs| <= |Step(s, e, capacity).runs| && Steady(s.runs[j], Step(s, e, capacity).runs[j])
  {
    hide Good;
  }

  /** Nothing but a refused restore loses a draft. */
  lemma OnlyRestoresLose(s: State, e: Event, capacity: nat, j: nat)
    requires Good(s, capacity) && j < |s.runs| && e != Thread(j, Restore)
    ensures |s.runs| <= |Step(s, e, capacity).runs| && Steady(s.runs[j], Step(s, e, capacity).runs[j])
  {
    hide Good, ThreadStep, AcceptStep, RegisterStep, FindToAcceptStep;
    if e.Thread? {
      if e.run < |s.runs| {
        ThreadIsSteady(s, e.run, e.act, capacity, j);
      }
    } else {
      OtherStepIsSteady(s, e, capacity, j);
    }
  }

  /** Once closed, an inbox stays closed and empty, and the run accepts nothing any more. */
  lemma NothingAcceptedAfterClose(events: seq<Event>, e: Event, capacity: nat, j: nat)
    requires j < |Execute(events, capacity).runs| && Execute(events, capacity).runs[j].inbox.closed
    ensures var next := Execute(events + [e], capacity);
      && j < |next.runs| && next.runs[j].inbox == Execute(events, capacity).runs[j].inbox
      && next.runs[j].inbox.drafts == []
      && next.runs[j].accepted == Execute(events, capacity).runs[j].accepted
  {
    SteeringIsConserved(events, capacity);
    Execute1(events, e, capacity);
    var s := Execute(events, capacity);
    assert RunIsGood(s.registry, s.runs[j], j, capacity);
    hide Execute, RunIsGood, Good, ThreadStep, AcceptStep, RegisterStep, FindToAcceptStep;
    if e.Thread? {
      if e.run < |s.runs| {
        ThreadIsSteady(s, e.run, e.act, capacity, j);
      }
    } else {
      OtherStepIsSteady(s, e, capacity, j);
    }
  }
}
