/**
 * Cancellation against start (internal/agenttask/service.go): any number of cancel calls are interleaved with the
 * worker that claims, registers, re-reads and runs one task, with other writers of its state, and with lease
 * recovery.
 */
module TaskCancellation {

  /** The stored state; Finished stands for every outcome that the worker records. */
  datatype Stored = Queued | Running | Canceling | Canceled | Interrupted | Finished

  /**
   * Where the worker's thread is. The run's cancel function is registered from Registered until Unregistered; a claimed
   * agent task that could not be loaded is Abandoned and only finished.
   */
  datatype Worker =
    | Away
    | Claimed
    | Abandoned
    | Registered
    | Refused
    | RunnerStarted
    | RunnerReturned
    | Ended
    | Unregistered

  /** Where a cancel call is. Signalling takes two steps: looking the cancel function up, and calling it. */
  datatype Caller =
    | Begin
    | TryRunning
    | LookUp(first: bool)
    | Signal(first: bool, found: bool)
    | Fetch
    | Done

  /** `hit`: the call moved the agent task to canceling, or found it canceling. */
  datatype Cancel = Cancel(caller: Caller, hit: bool)

  /** `recovered`: lease recovery took the agent task after its claim and before the worker's re-read. */
  datatype State = State(task: Stored, worker: Worker, contextEnded: bool, recovered: bool, cancels: seq<Cancel>)

  datatype CallerStep = CancelQueued | RequestRunning | LookUpActive | CallCancel | FetchTask | GiveUp

  datatype Event =
    | NewCancel
    | Advance(call: nat, step: CallerStep)
    | RejectQueued
    | Claim
    | LoadFails
    | Register
    | ReRead
    | ReReadFails
    | RunnerReturns
    | EndContext
    | Unregister
    | Finish
    | OtherCancel
    | ContextEnds
    | Recover

  predicate IsRegistered(w: Worker) {
    w in {Registered, Refused, RunnerStarted, RunnerReturned, Ended}
  }

  function WithCancel(s: State, k: nat, caller: Caller, hit: bool): State
    requires k < |s.cancels|
  {
    s.(cancels := s.cancels[k := Cancel(caller, s.cancels[k].hit || hit)])
  }

  function AdvanceStep(s: State, k: nat, step: CallerStep): State
    requires k < |s.cancels|
  {
    match (s.cancels[k].caller, step)
    case (Begin, CancelQueued) =>
      if s.task == Queued then WithCancel(s, k, Fetch, false).(task := Canceled)
      else WithCancel(s, k, TryRunning, false)
    case (TryRunning, RequestRunning) =>
      if s.task == Running then WithCancel(s, k, LookUp(true), true).(task := Canceling)
      else WithCancel(s, k, Fetch, false)
    case (LookUp(first), LookUpActive) => WithCancel(s, k, Signal(first, IsRegistered(s.worker)), false)
    case (Signal(first, found), CallCancel) =>
      var next := WithCancel(s, k, if first then Fetch else Done, false);
      if found then next.(contextEnded := true) else next
    case (Fetch, FetchTask) =>
      if s.task == Canceling then WithCancel(s, k, LookUp(false), true) else WithCancel(s, k, Done, false)
    case (Fetch, GiveUp) => WithCancel(s, k, Done, false)
    case _ => s
  }

  /** The worker re-reads the agent task after registering: a canceling task never starts. */
  function WorkerStep(s: State, e: Event): State {
    match e
    case Claim => if s.worker == Away && s.task == Queued then s.(task := Running, worker := Claimed) else s
    case LoadFails => if s.worker == Claimed then s.(worker := Abandoned) else s
    case Register => if s.worker == Claimed then s.(worker := Registered) else s
    case ReRead =>
      if s.worker != Registered then s
      else if s.task == Canceling then s.(worker := Refused) else s.(worker := RunnerStarted)
    case ReReadFails => if s.worker == Registered then s.(worker := Refused) else s
    case RunnerReturns => if s.worker == RunnerStarted then s.(worker := RunnerReturned) else s
    case EndContext =>
      if s.worker == Refused || s.worker == RunnerReturned then s.(worker := Ended, contextEnded := true) else s
    case Unregister => if s.worker == Ended then s.(worker := Unregistered) else s
    case Finish =>
      if s.worker in {Abandoned, Unregistered} && s.task in {Running, Canceling} then s.(task := Finished) else s
    case RejectQueued => if s.task == Queued then s.(task := Finished) else s
    case _ => s
  }

  /** A workflow may cancel the agent task in the database; the deadline or a lost lease may end the run's context. */
  function Step(s: State, e: Event): State {
    match e
    case NewCancel => s.(cancels := s.cancels + [Cancel(Begin, false)])
    case Advance(k, step) => if k < |s.cancels| then AdvanceStep(s, k, step) else s
    case OtherCancel =>
      if s.task == Running then s.(task := Canceling)
      else if s.task == Queued then s.(task := Canceled) else s
    case ContextEnds => if s.worker in {Claimed, Registered, RunnerStarted} then s.(contextEnded := true) else s
    case Recover =>
      if s.task !in {Running, Canceling} then s
      else s.(task := Interrupted, recovered := s.worker in {Claimed, Registered})
    case _ => WorkerStep(s, e)
  }

  function Execute(events: seq<Event>): State {
    if events == [] then State(Queued, Away, false, false, [])
    else Step(Execute(events[..|events| - 1]), events[|events| - 1])
  }

  // ----- the invariant -----

  /** The runner has not been started, and the worker has yet to re-read the agent task or has refused to start it. */
  predicate NotStarted(w: Worker) {
    w in {Away, Claimed, Abandoned, Registered, Refused}
  }

  /** The cancellation cannot be lost: the run is stopped, is over, or will be refused by the re-read. */
  predicate Effective(s: State) {
    || s.contextEnded
    || s.worker in {Abandoned, Refused, RunnerReturned, Ended, Unregistered}
    || (s.worker in {Claimed, Registered} && s.task == Canceling)
  }

  /** Lease recovery took the agent task before the re-read, and nothing else has stopped its run. */
  predicate LostToRecovery(s: State) {
    s.recovered && !s.contextEnded && s.worker in {Claimed, Registered, RunnerStarted}
  }

  /** The call has signalled the run, or found nothing to signal, since the agent task was canceling. */
  predicate HasSignalled(c: Cancel) {
    c.hit && (c.caller in {Fetch, Done} || c.caller == Signal(true, false) || c.caller == Signal(false, false))
  }

  predicate TaskIsGood(s: State) {
    && (s.task == Queued ==> s.worker == Away)
    && (s.worker == Away ==> s.task in {Queued, Canceled, Finished})
    && (s.task == Canceled ==> s.worker == Away)
    && (s.task == Finished ==> s.worker in {Away, Abandoned, Unregistered})
    && (s.recovered ==> s.task == Interrupted)
    && (s.task == Interrupted && s.worker in {Claimed, Registered} ==> s.recovered)
    && (s.worker in {Ended, Unregistered} ==> s.contextEnded)
    && (s.contextEnded ==> s.worker != Away)
  }

  predicate CancelIsGood(s: State, c: Cancel) {
    && (c.caller in {Begin, TryRunning} ==> !c.hit)
    && (c.caller.LookUp? || c.caller.Signal? ==> c.hit)
    && (c.hit ==> s.task !in {Queued, Running, Canceled} && s.worker != Away)
    && (c.caller.Signal? && c.caller.found ==> IsRegistered(s.worker) || s.worker == Unregistered)
    && (HasSignalled(c) ==> Effective(s) || LostToRecovery(s))
  }

  predicate Good(s: State) {
    TaskIsGood(s) && forall k | 0 <= k < |s.cancels| :: CancelIsGood(s, s.cancels[k])
  }

  lemma AdvanceKeepsGood(s: State, k: nat, step: CallerStep)
    requires Good(s) && k < |s.cancels|
    ensures Good(AdvanceStep(s, k, step))
  {
    var t := AdvanceStep(s, k, step);
    assert CancelIsGood(s, s.cancels[k]);
    forall j | 0 <= j < |t.cancels| ensures CancelIsGood(t, t.cancels[j]) {
      assert CancelIsGood(s, s.cancels[j]);
    }
  }

  lemma WorkerKeepsGood(s: State, t: State, e: Event)
    requires Good(s) && !e.Advance? && !e.NewCancel? && t == Step(s, e)
    ensures Good(t)
  {
    forall j | 0 <= j < |t.cancels| ensures CancelIsGood(t, t.cancels[j]) {
      assert CancelIsGood(s, s.cancels[j]);
    }
  }

  lemma {:induction false} CancellationIsGood(events: seq<Event>)
    ensures Good(Execute(events))
  {
    if events != [] {
      hide Good, Step;
      var n := |events| - 1;
      CancellationIsGood(events[..n]);
      StepKeepsGood(Execute(events[..n]), events[n]);
    }
  }

  lemma StepKeepsGood(s: State, e: Event)
    requires Good(s)
    ensures Good(Step(s, e))
  {
    hide CancelIsGood, TaskIsGood, AdvanceStep;
    if e.Advance? {
      if e.call < |s.cancels| {
        AdvanceKeepsGood(s, e.call, e.step);
      }
    } else if e.NewCancel? {
      NewCancelKeepsGood(s);
    } else {
      WorkerKeepsGood(s, Step(s, e), e);
    }
  }

  lemma NewCancelKeepsGood(s: State)
    requires Good(s)
    ensures Good(Step(s, NewCancel))
  {
    var t := Step(s, NewCancel);
    forall j | 0 <= j < |t.cancels| ensures CancelIsGood(t, t.cancels[j]) {
      if j < |s.cancels| {
        assert CancelIsGood(s, s.cancels[j]);
      }
    }
  }

  // ----- no lost cancellation -----

  /**
   * In every interleaving, when a cancel call that moved the agent task to canceling or found it canceling completes,
   * the run's context is cancelled, or its runner has returned, or it has not been started and will be refused:
   * exactly unless lease recovery took the agent task before the worker's re-read and nothing else has stopped the
   * run.
   */
  lemma NoLostCancellation(events: seq<Event>, k: nat)
    requires k < |Execute(events).cancels|
    requires Execute(events).cancels[k] == Cancel(Done, true)
    ensures Effective(Execute(events)) <==> !LostToRecovery(Execute(events))
  {
    CancellationIsGood(events);
    assert CancelIsGood(Execute(events), Execute(events).cancels[k]);
  }

  /** Once effective, a cancellation can only be lost to a recovery before the re-read. */
  lemma EffectiveStays(s: State, e: Event)
    requires Good(s) && (Effective(s) || LostToRecovery(s))
    ensures Effective(Step(s, e)) || LostToRecovery(Step(s, e))
  {
  }

  lemma {:induction false} EffectiveUnlessRecovered(events: seq<Event>, more: seq<Event>)
    requires Effective(Execute(events))
    ensures Effective(Execute(events + more)) || LostToRecovery(Execute(events + more))
    decreases |more|
  {
    hide Effective, LostToRecovery, Step, Good;
    if more == [] {
      assert events + more == events;
    } else {
      var n := |more| - 1;
      assert (events + more)[..|events + more| - 1] == events + more[..n];
      EffectiveUnlessRecovered(events, more[..n]);
      CancellationIsGood(events + more[..n]);
      LastStep(events + more);
      EffectiveStays(Execute(events + more[..n]), more[n]);
    }
  }

  /** The runner has not been started and will not be. */
  predicate WillNotStart(s: State) {
    || s.worker in {Abandoned, Refused, Ended, Unregistered}
    || (s.worker in {Claimed, Registered} && s.task == Canceling)
  }

  lemma WillNotStartStays(s: State, e: Event)
    requires TaskIsGood(s) && (WillNotStart(s) || s.recovered)
    ensures WillNotStart(Step(s, e)) || Step(s, e).recovered
  {
  }

  /**
   * A run that had not been started when the cancellation took effect is started later only after a recovery between
   * its claim and its re-read, whatever else happens.
   */
  lemma NeverStarts(events: seq<Event>, more: seq<Event>)
    requires Effective(Execute(events)) && NotStarted(Execute(events).worker) && !Execute(events).contextEnded
    ensures Execute(events + more).worker == RunnerStarted ==> Execute(events + more).recovered
  {
    CancellationIsGood(events);
    NeverStartsLater(events, more);
    hide Execute;
  }

  lemma {:induction false} NeverStartsLater(events: seq<Event>, more: seq<Event>)
    requires WillNotStart(Execute(events))
    ensures WillNotStart(Execute(events + more)) || Execute(events + more).recovered
    decreases |more|
  {
    hide WillNotStart, Step;
    if more == [] {
      assert events + more == events;
    } else {
      var n := |more| - 1;
      assert (events + more)[..|events + more| - 1] == events + more[..n];
      NeverStartsLater(events, more[..n]);
      CancellationIsGood(events + more[..n]);
      LastStep(events + more);
      WillNotStartStays(Execute(events + more[..n]), more[n]);
    }
  }

  lemma LastStep(events: seq<Event>)
    requires events != []
    ensures Execute(events) == Step(Execute(events[..|events| - 1]), events[|events| - 1])
  {
  }

  /** The exception is real: recovered before its re-read, a task runs after a cancel call has completed. */
  lemma RecoveryLosesCancellation() returns (events: seq<Event>)
    ensures var s := Execute(events);
      && s.cancels == [Cancel(Done, true)] && s.worker == RunnerStarted && !s.contextEnded
  {
    var before, s := ClaimedThenCancelled();
    hide Execute;
    events, s := Extend(before, s, Recover);
    events, s := Extend(events, s, Register);
    events, s := Extend(events, s, ReRead);
  }

  lemma ClaimedThenCancelled() returns (events: seq<Event>, s: State)
    ensures s == Execute(events) == State(Canceling, Claimed, false, false, [Cancel(Done, true)])
  {
    events, s := [], State(Queued, Away, false, false, []);
    assert s == Execute(events);
    hide Execute;
    events, s := Extend(events, s, Claim);
    events, s := Extend(events, s, NewCancel);
    events, s := Extend(events, s, Advance(0, CancelQueued));
    events, s := Extend(events, s, Advance(0, RequestRunning));
    events, s := Extend(events, s, Advance(0, LookUpActive));
    events, s := Extend(events, s, Advance(0, CallCancel));
    events, s := Extend(events, s, Advance(0, GiveUp));
  }

  lemma Extend(events: seq<Event>, s: State, e: Event) returns (longer: seq<Event>, t: State)
    requires s == Execute(events)
    ensures longer == events + [e] && t == Execute(longer) == Step(s, e)
  {
    hide Step;
    longer := events + [e];
    assert longer[..|events|] == events;
    t := Execute(longer);
  }
}
