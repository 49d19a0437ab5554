/**
 * Lease renewal against expiry recovery (internal/agenttask/service.go, internal/database/task_repository.go).
 *
 * One task, the worker that claims it, and recoveries at any time. The clock never goes back. A renewal captures its
 * new expiry, may be delayed before and after its statement runs, and may report an error although it was committed;
 * its effects are confined to the call.
 */
module TaskLease {
  import opened Text
  import opened Timestamps

  datatype Task = Queued | Held(lease: Instant) | Settled

  /** A renewal call: `applied` says whether its statement has run, and changed the row. */
  datatype Attempt = NoAttempt | InFlight(renewedUntil: Instant, startedAt: Instant, applied: Option<bool>)

  datatype Worker =
    | Away
    | Claiming(lease: Instant)
    | Claimed
    | Loaded(seen: Option<Instant>)
    | Beating(validUntil: Instant, attempt: Attempt)
    | Stopped

  datatype State = State(now: Instant, task: Task, worker: Worker)

  datatype Report = Renewed | OwnershipLost | Failed

  datatype Event =
    | Tick(elapsed: nat)
    | PrepareClaim
    | Claim
    | Load
    | StartHeartbeat
    | StartRenewal
    | RunRenewal(sqlNow: Instant)
    | FinishRenewal(report: Report)
    | Stop
    | Finish
    | Recover(cutoff: Instant)

  /** The condition of the update: the stored lease is later than the time, as texts. */
  predicate StoredAfter(lease: Instant, time: Instant) {
    Less(FormatTime(time), FormatTime(lease))
  }

  function RunRenewalStep(s: State, sqlNow: Instant): State {
    if s.worker.Beating? && s.worker.attempt.InFlight? && s.worker.attempt.applied.None?
       && s.worker.attempt.startedAt <= sqlNow <= s.now then
      var renews := s.task.Held? && StoredAfter(s.task.lease, sqlNow);
      s.(task := if renews then Held(s.worker.attempt.renewedUntil) else s.task,
         worker := s.worker.(attempt := s.worker.attempt.(applied := Some(renews))))
    else s
  }

  function FinishRenewalStep(s: State, report: Report): State {
    if !s.worker.Beating? || !s.worker.attempt.InFlight? then s
    else match report
      case Renewed =>
        if s.worker.attempt.applied == Some(true) then
          s.(worker := Beating(s.worker.attempt.renewedUntil, NoAttempt))
        else s
      case OwnershipLost => if s.worker.attempt.applied == Some(false) then s.(worker := Stopped) else s
      case Failed => s.(worker := s.worker.(attempt := NoAttempt))
  }

  function RecoverStep(s: State, cutoff: Instant): State {
    if cutoff <= s.now && s.task.Held? && !StoredAfter(s.task.lease, cutoff) then s.(task := Settled) else s
  }

  /** `duration` is the length of a lease. Nothing happens after the year 9999. */
  function Step(s: State, e: Event, duration: nat): State {
    match e
    case Tick(elapsed) => if Formattable(s.now + elapsed + duration) then s.(now := s.now + elapsed) else s
    case PrepareClaim => if s.worker.Away? then s.(worker := Claiming(s.now + duration)) else s
    case Claim =>
      if s.worker.Claiming? && s.task.Queued? then s.(task := Held(s.worker.lease), worker := Claimed) else s
    case Load =>
      if s.worker.Claimed? then s.(worker := Loaded(if s.task.Held? then Some(s.task.lease) else None)) else s
    case StartHeartbeat =>
      (match s.worker
       case Loaded(Some(lease)) => s.(worker := Beating(lease, NoAttempt))
       case Loaded(None) => s.(worker := Beating(s.now + duration, NoAttempt))
       case _ => s)
    case StartRenewal =>
      if s.worker.Beating? && s.worker.attempt.NoAttempt? && s.now < s.worker.validUntil then
        s.(worker := s.worker.(attempt := InFlight(s.now + duration, s.now, None)))
      else s
    case RunRenewal(sqlNow) => RunRenewalStep(s, sqlNow)
    case FinishRenewal(report) => FinishRenewalStep(s, report)
    case Stop => s.(worker := Stopped)
    case Finish => if s.task.Held? then s.(task := Settled) else s
    case Recover(cutoff) => RecoverStep(s, cutoff)
  }

  function Execute(events: seq<Event>, start: Instant, duration: nat): State {
    if events == [] then State(start, Queued, Away)
    else Step(Execute(events[..|events| - 1], start, duration), events[|events| - 1], duration)
  }

  // ----- the invariant -----

  /** What a renewal in flight knows about the stored lease. */
  ghost predicate AttemptIsGood(attempt: Attempt, validUntil: Instant, task: Task, now: Instant, duration: nat) {
    attempt.InFlight? ==>
      && attempt.startedAt <= now && attempt.renewedUntil == attempt.startedAt + duration
      && validUntil <= attempt.renewedUntil
      && (task.Held? ==> task.lease <= attempt.renewedUntil)
      && (attempt.applied == Some(true) && task.Held? ==> task.lease == attempt.renewedUntil)
  }

  ghost predicate Good(s: State, duration: nat) {
    && Formattable(s.now + duration)
    && (s.task.Held? ==> s.task.lease <= s.now + duration)
    && (match s.worker
        case Away => true
        case Claiming(lease) => lease <= s.now + duration
        case Claimed => !s.task.Queued?
        case Loaded(seen) => !s.task.Queued? && (s.task.Held? ==> seen == Some(s.task.lease))
          && (seen.Some? ==> seen.value <= s.now + duration)
        case Beating(validUntil, attempt) => !s.task.Queued?
          && (s.task.Held? ==> validUntil <= s.task.lease)
          && validUntil <= s.now + duration
          && AttemptIsGood(attempt, validUntil, s.task, s.now, duration)
        case Stopped => true)
  }

  lemma StepKeepsGood(s: State, e: Event, duration: nat)
    requires Good(s, duration)
    ensures Good(Step(s, e, duration), duration)
  {
    hide StoredAfter, Formattable;
  }

  /** In every run the worker's idea of its lease never exceeds the stored one. */
  lemma {:induction false} LeasesAreGood(events: seq<Event>, start: Instant, duration: nat)
    requires Formattable(start + duration)
    ensures Good(Execute(events, start, duration), duration)
  {
    hide Step, Good;
    if events == [] {
      StartIsGood(start, duration);
    } else {
      LeasesAreGood(events[..|events| - 1], start, duration);
      StepKeepsGood(Execute(events[..|events| - 1], start, duration), events[|events| - 1], duration);
    }
  }

  lemma StartIsGood(start: Instant, duration: nat)
    requires Formattable(start + duration)
    ensures Good(State(start, Queued, Away), duration)
  {
  }

  lemma FormattableBelow(a: Instant, b: Instant)
    requires a <= b && Formattable(b)
    ensures Formattable(a)
  {
    hide DateOf;
    var dayA, dayB := Seconds(a) / SECONDS_PER_DAY, Seconds(b) / SECONDS_PER_DAY;
    if dayA < dayB {
      DatesAscend(dayA, dayB);
    }
  }

  // ----- consequences -----

  ghost predicate Reachable(s: State, start: Instant, duration: nat) {
    Formattable(start + duration) && exists events :: s == Execute(events, start, duration)
  }

  lemma ReachableIsGood(s: State, start: Instant, duration: nat)
    requires Reachable(s, start, duration)
    ensures Good(s, duration)
  {
    hide Execute, Good, Formattable;
    var events :| s == Execute(events, start, duration);
    LeasesAreGood(events, start, duration);
  }

  /** The heartbeat's deadline is never later than the stored lease of the agent task that it still holds. */
  lemma DeadlineNeverExceedsLease(s: State, start: Instant, duration: nat)
    requires Reachable(s, start, duration) && s.task.Held? && s.worker.Beating?
    ensures s.worker.validUntil <= s.task.lease
  {
    hide Reachable;
    ReachableIsGood(s, start, duration);
  }

  lemma StoredAfterMeans(lease: Instant, time: Instant)
    requires Formattable(lease) && Formattable(time)
    ensures StoredAfter(lease, time) <==> if Misordered(time, lease) then lease < time else time < lease
  {
    hide Less, FormatTime, Formattable, Misordered;
    TextOrder(time, lease);
  }

  lemma HeldFacts(s: State, duration: nat)
    requires Good(s, duration) && s.task.Held? && s.worker.Beating?
    ensures s.worker.validUntil <= s.task.lease <= s.now + duration
    ensures Formattable(s.now + duration) && Formattable(s.task.lease)
  {
    FormattableBelow(s.task.lease, s.now + duration);
  }

  /**
   * A recovery whose cutoff lies before the worker's deadline takes the agent task exactly when SQLite misorders the
   * two texts: the cutoff falls into the second of the stored lease, and its printed fraction is a proper prefix of
   * the lease's.
   */
  lemma RecoveryTakesValidLeaseExactlyWhenMisordered(s: State, start: Instant, duration: nat, cutoff: Instant)
    requires Reachable(s, start, duration)
    requires s.task.Held? && s.worker.Beating? && cutoff <= s.now && cutoff < s.worker.validUntil
    ensures Step(s, Recover(cutoff), duration).task == Settled <==> Misordered(cutoff, s.task.lease)
    ensures Misordered(cutoff, s.task.lease) ==> s.worker.validUntil - cutoff < SECOND
  {
    hide Reachable, Misordered, RecoverStep, Good;
    ReachableIsGood(s, start, duration);
    RecoveryOfHeld(s, duration, cutoff);
  }

  lemma RecoveryOfHeld(s: State, duration: nat, cutoff: Instant)
    requires Good(s, duration) && s.task.Held? && s.worker.Beating? && cutoff <= s.now && cutoff < s.worker.validUntil
    ensures RecoverStep(s, cutoff).task == Settled <==> Misordered(cutoff, s.task.lease)
    ensures Misordered(cutoff, s.task.lease) ==> s.worker.validUntil - cutoff < SECOND
  {
    HeldFacts(s, duration);
    hide StoredAfter, Misordered, Formattable, Good;
    FormattableBelow(cutoff, s.now + duration);
    StoredAfterMeans(s.task.lease, cutoff);
    if Misordered(cutoff, s.task.lease) {
      MisorderedAreClose(cutoff, s.task.lease);
    }
  }

  /** A renewal whose statement runs before the stored lease ends is refused exactly when the texts are misordered. */
  lemma RenewalIsRefusedExactlyWhenMisordered(s: State, start: Instant, duration: nat, sqlNow: Instant)
    requires Reachable(s, start, duration)
    requires s.task.Held? && s.worker.Beating? && s.worker.attempt.InFlight? && s.worker.attempt.applied.None?
    requires s.worker.attempt.startedAt <= sqlNow <= s.now
    ensures Step(s, RunRenewal(sqlNow), duration).worker.attempt.applied ==
      Some(if Misordered(sqlNow, s.task.lease) then s.task.lease < sqlNow else sqlNow < s.task.lease)
  {
    hide Reachable, Misordered, RunRenewalStep, Good;
    ReachableIsGood(s, start, duration);
    RenewalOfHeld(s, duration, sqlNow);
  }

  lemma RenewalOfHeld(s: State, duration: nat, sqlNow: Instant)
    requires Good(s, duration) && s.task.Held? && s.worker.Beating? && s.worker.attempt.InFlight?
    requires s.worker.attempt.applied.None? && s.worker.attempt.startedAt <= sqlNow <= s.now
    ensures RunRenewalStep(s, sqlNow).worker.attempt.applied ==
      Some(if Misordered(sqlNow, s.task.lease) then s.task.lease < sqlNow else sqlNow < s.task.lease)
  {
    HeldFacts(s, duration);
    hide StoredAfter, Misordered, Formattable, Good;
    FormattableBelow(sqlNow, s.now + duration);
    StoredAfterMeans(s.task.lease, sqlNow);
  }

  /**
   * The misordering is reachable: claimed at 0.51 s for 30 s, the agent task is taken at 30.5 s from a worker that
   * counts on it.
   */
  lemma ValidLeaseTaken() returns (events: seq<Event>)
    ensures var before := Execute(events, 510_000_000, 30 * SECOND);
      && before.task.Held? && before.worker.Beating? && before.now < before.worker.validUntil
      && Execute(events + [Recover(before.now)], 510_000_000, 30 * SECOND).task == Settled
  {
    var start: Instant, duration: nat := 510_000_000, 30 * SECOND;
    var s;
    events, s := UntilShortlyBeforeExpiry();
    FirstDay(start + duration);
    hide Execute, Step, Misordered, Formattable, StoredAfter, Reachable;
    MisorderedWitness(30);
    ItIsReachable(events, s, start, duration);
    RecoveryTakesValidLeaseExactlyWhenMisordered(s, start, duration, s.now);
    var more, t := Extend(events, s, Recover(s.now), start, duration);
  }

  lemma UntilShortlyBeforeExpiry() returns (events: seq<Event>, s: State)
    ensures s == State(30_500_000_000, Held(30_510_000_000), Beating(30_510_000_000, NoAttempt))
    ensures s == Execute(events, 510_000_000, 30 * SECOND)
  {
    var start: Instant, duration: nat := 510_000_000, 30 * SECOND;
    FirstDay(60_500_000_000);
    events, s := [], State(start, Queued, Away);
    hide Execute, Formattable, RunRenewalStep, FinishRenewalStep, StoredAfter;
    events, s := Extend(events, s, PrepareClaim, start, duration);
    events, s := Extend(events, s, Claim, start, duration);
    events, s := Extend(events, s, Load, start, duration);
    events, s := Extend(events, s, StartHeartbeat, start, duration);
    events, s := Extend(events, s, Tick(29_990_000_000), start, duration);
  }

  lemma Extend(events: seq<Event>, s: State, e: Event, start: Instant, duration: nat)
    returns (longer: seq<Event>, t: State)
    requires s == Execute(events, start, duration)
    ensures longer == events + [e]
    ensures t == Execute(longer, start, duration) == Step(s, e, duration)
  {
    hide Step;
    longer := events + [e];
    assert longer[..|events|] == events;
    t := Execute(longer, start, duration);
  }

  lemma ItIsReachable(events: seq<Event>, s: State, start: Instant, duration: nat)
    requires Formattable(start + duration) && s == Execute(events, start, duration)
    ensures Reachable(s, start, duration)
  {
  }

  lemma FirstDay(t: Instant)
    requires t < 86400 * SECOND
    ensures Formattable(t)
  {
  }
}
