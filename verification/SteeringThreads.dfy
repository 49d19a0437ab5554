/**
 * The steps of the steering protocol, taken by the registry and its inboxes themselves
 * (internal/assistant/steering_inbox.go).
 */
module SteeringThreads {
  import opened Text
  import opened Steering
  import opened SteeringRuns

  ghost predicate Distinct(created: seq<SteeringInbox>) {
    forall i, j | 0 <= i < j < |created| :: created[i] != created[j]
  }

  ghost predicate InboxMirrors(inbox: SteeringInbox, run: Run)
    reads inbox
  {
    inbox.Value() == run.inbox
  }

  /** Both tables name the same inboxes. */
  ghost predicate TableMirrors(
    inboxes: map<string, SteeringInbox>, created: seq<SteeringInbox>, table: map<string, nat>)
  {
    && inboxes.Keys == table.Keys
    && forall session | session in inboxes ::
      table[session] < |created| && inboxes[session] == created[table[session]]
  }

  lemma AddedToTable(
    inboxes: map<string, SteeringInbox>, created: seq<SteeringInbox>, table: map<string, nat>,
    session: string, inbox: SteeringInbox)
    requires TableMirrors(inboxes, created, table)
    ensures TableMirrors(inboxes[session := inbox], created + [inbox], table[session := |created|])
  {
  }

  lemma RemovedFromTable(
    inboxes: map<string, SteeringInbox>, created: seq<SteeringInbox>, table: map<string, nat>, session: string)
    requires TableMirrors(inboxes, created, table)
    ensures TableMirrors(inboxes - {session}, created, table - {session})
  {
  }

  lemma FoundInTable(s: State, inboxes: map<string, SteeringInbox>, created: seq<SteeringInbox>, session: string)
    requires TableMirrors(inboxes, created, s.registry)
    ensures session in inboxes <==> Find(s, session).Some?
    ensures session in inboxes ==>
      Find(s, session).value < |created| && inboxes[session] == created[Find(s, session).value]
  {
  }

  /**
   * `events` are the steps taken so far by all threads, and `created` the inboxes in the order of their registration.
   * Every method takes one step, so what is proved of executions holds of the objects.
   */
  class Threads {
    const registry: SteeringInboxRegistry
    ghost var events: seq<Event>
    ghost var created: seq<SteeringInbox>

    ghost function Now(): State
      reads this
    {
      Execute(events, registry.capacity)
    }

    /** The objects are in this state. */
    ghost predicate Mirrors(s: State)
      reads this, registry, created
    {
      && |created| == |s.runs|
      && Distinct(created)
      && (forall k | 0 <= k < |created| :: InboxMirrors(created[k], s.runs[k]))
      && TableMirrors(registry.inboxes, created, s.registry)
    }

    ghost predicate Valid()
      reads this, registry, created
    {
      registry.capacity > 0 && Mirrors(Now())
    }

    /** Run i has this session, this ID and this inbox. */
    ghost predicate IsRun(i: nat, session: string, run: string, inbox: SteeringInbox)
      reads this
    {
      && i < |Now().runs| == |created|
      && Now().runs[i].session == session && Now().runs[i].inbox.runId == run && created[i] == inbox
    }

    ghost function PhaseOf(i: nat): Phase
      reads this
      requires i < |Now().runs|
    {
      Now().runs[i].phase
    }

    constructor (capacity: int)
      ensures Valid() && events == []
    {
      registry := new SteeringInboxRegistry(capacity);
      events, created := [], [];
    }

    /** The registry's own invariant holds in every reachable state. */
    lemma RegistryIsValid()
      requires Valid()
      ensures registry.Valid()
      ensures Good(Now(), registry.capacity)
    {
      SteeringIsConserved(events, registry.capacity);
      hide Execute, Conserved;
      var s := Now();
      forall session | session in registry.inboxes ensures registry.inboxes[session].capacity == registry.capacity {
        var k := s.registry[session];
        assert RunIsGood(s.registry, s.runs[k], k, registry.capacity) && InboxMirrors(created[k], s.runs[k]);
      }
    }

    /** A run ID is the ID of the user entry that started the run: no two runs have the same. */
    method Register(session: string, run: string) returns (error: Option<SteeringError>)
      requires Valid()
      requires forall i | 0 <= i < |Now().runs| :: Now().runs[i].inbox.runId != run
      modifies this`events, this`created, registry`inboxes
      ensures Valid() && events == old(events) + [Event.Register(session, run)]
      ensures error == if session in old(registry.inboxes) then Some(StaleRun) else None
      ensures error.None? ==>
        fresh(registry.inboxes[session]) && IsRun(|old(created)|, session, run, registry.inboxes[session])
      ensures error.None? ==> PhaseOf(|old(created)|) == Idle
    {
      hide Execute, TableMirrors, Good;
      RegistryIsValid();
      ghost var s := Now();
      Execute1(events, Event.Register(session, run), registry.capacity);
      FoundInTable(s, registry.inboxes, created, session);
      ghost var before := registry.inboxes;
      error := registry.Register(session, run);
      if error.None? {
        ghost var inbox := registry.inboxes[session];
        assert registry.inboxes == before[session := inbox];
        AddedToTable(before, created, s.registry, session, inbox);
        created := created + [inbox];
      }
      events := events + [Event.Register(session, run)];
    }

    /** The first half of an accepted steering request. */
    method FindToAccept(session: string, run: string, draft: Draft) returns (inbox: Option<SteeringInbox>)
      requires Valid()
      modifies this`events
      ensures Valid() && events == old(events) + [Event.FindToAccept(session, run, draft)]
      ensures inbox.None? ==> session !in registry.inboxes && Now().callers == old(Now()).callers
      ensures inbox.Some? ==>
        && |Now().callers| == |old(Now()).callers| + 1
        && IsCaller(|old(Now()).callers|, run, draft, inbox.value)
    {
      hide Execute, TableMirrors;
      ghost var s := Now();
      Execute1(events, Event.FindToAccept(session, run, draft), registry.capacity);
      FoundInTable(s, registry.inboxes, created, session);
      inbox := registry.Find(session);
      events := events + [Event.FindToAccept(session, run, draft)];
    }

    /** Caller c has found this inbox for its request. */
    ghost predicate IsCaller(c: nat, run: string, draft: Draft, inbox: SteeringInbox)
      reads this
    {
      && c < |Now().callers| && Now().callers[c].target < |created|
      && Now().callers[c] == Caller(Now().callers[c].target, run, draft)
      && created[Now().callers[c].target] == inbox
    }

    /** The second half: by now the inbox may have been drained, closed or removed. */
    method Accept(run: string, draft: Draft, inbox: SteeringInbox, ghost c: nat) returns (error: Option<SteeringError>)
      requires Valid() && IsCaller(c, run, draft, inbox)
      modifies this`events, inbox
      ensures Valid() && events == old(events) + [Event.Accept(c)]
      ensures error == AcceptError(old(inbox.Value()), run)
      ensures var i := old(Now()).callers[c].target;
        && i < |old(Now()).runs| == |Now().runs|
        && Now().runs[i].accepted == old(Now()).runs[i].accepted + (if error.None? then [draft] else [])
    {
      hide Execute, TableMirrors, Good, AcceptStep;
      RegistryIsValid();
      ghost var s := Now();
      Execute1(events, Event.Accept(c), registry.capacity);
      Accepts(s, c, registry.capacity);
      assert InboxMirrors(created[s.callers[c].target], s.runs[s.callers[c].target]);
      error := inbox.Accept(run, draft);
      events := events + [Event.Accept(c)];
    }

    /** A step of the run's thread that touches no inbox: persisting a draft, or the end of a checkpoint. */
    ghost method Move(i: nat, act: Act)
      requires Valid() && i < |Now().runs| && IsInternal(act)
      modifies this`events
      ensures Valid() && events == old(events) + [Thread(i, act)]
      ensures Now() == ThreadStep(old(Now()), i, act)
    {
      hide Execute, TableMirrors, ThreadStep;
      Execute1(events, Thread(i, act), registry.capacity);
      MovesOnly(Now(), i, act);
      events := events + [Thread(i, act)];
    }

    /** The first half of a drain or of a restore: an open run always finds its own inbox. */
    method FindOwn(session: string, run: string, ghost i: nat, ghost own: SteeringInbox)
      returns (inbox: Option<SteeringInbox>)
      requires Valid() && IsRun(i, session, run, own) && (PhaseOf(i).Idle? || PhaseOf(i).Failed?)
      modifies this`events
      ensures Valid() && inbox == Some(own) && IsRun(i, session, run, own)
      ensures events == old(events) + [Thread(i, if old(PhaseOf(i)).Idle? then FindToDrain else FindToRestore)]
      ensures PhaseOf(i) ==
        if old(PhaseOf(i)).Idle? then DrainFound(Some(i)) else RestoreFound(old(PhaseOf(i)).left, Some(i))
    {
      hide Execute, TableMirrors, Good;
      RegistryIsValid();
      ghost var s := Now();
      OpenRunIsFound(s, i, registry.capacity);
      FoundInTable(s, registry.inboxes, created, session);
      inbox := registry.Find(session);
      Move(i, if s.runs[i].phase.Idle? then FindToDrain else FindToRestore);
    }

    /** The second half of a drain: it cannot fail, and hands out what waits. */
    method Drain(session: string, run: string, inbox: SteeringInbox, ghost i: nat)
      returns (drained: seq<Draft>, error: Option<SteeringError>)
      requires Valid() && IsRun(i, session, run, inbox) && PhaseOf(i).DrainFound?
      modifies this`events, inbox
      ensures Valid() && events == old(events) + [Thread(i, Act.Drain)] && IsRun(i, session, run, inbox)
      ensures error.None? && drained == old(inbox.drafts)
      ensures PhaseOf(i) == if drained == [] then Idle else Persisting(drained)
    {
      hide Execute, TableMirrors, Good, DrainStep;
      RegistryIsValid();
      ghost var s := Now();
      Execute1(events, Thread(i, Act.Drain), registry.capacity);
      Drains(s, i, registry.capacity);
      OpenRunIsFound(s, i, registry.capacity);
      assert InboxMirrors(created[i], s.runs[i]);
      drained, error := inbox.Drain(run);
      events := events + [Thread(i, Act.Drain)];
    }

    /** The last checkpoint: settles the run, or drains once more. */
    method DrainFinal(session: string, run: string, ghost i: nat, ghost inbox: SteeringInbox)
      returns (drained: seq<Draft>, error: Option<SteeringError>)
      requires Valid() && IsRun(i, session, run, inbox) && PhaseOf(i).Idle?
      modifies this`events, registry`inboxes, inbox
      ensures Valid() && events == old(events) + [Thread(i, Act.DrainFinal)] && IsRun(i, session, run, inbox)
      ensures error.None? && drained == old(inbox.drafts)
      ensures PhaseOf(i) == if drained == [] then Finished else Persisting(drained)
    {
      hide Execute, TableMirrors, Good, DrainFinalStep;
      RegistryIsValid();
      ghost var s := Now();
      Execute1(events, Thread(i, Act.DrainFinal), registry.capacity);
      DrainsFinally(s, i, registry.capacity);
      OpenRunIsFound(s, i, registry.capacity);
      FoundInTable(s, registry.inboxes, created, session);
      RemovedFromTable(registry.inboxes, created, s.registry, session);
      assert InboxMirrors(created[i], s.runs[i]);
      drained, error := registry.DrainFinal(session, run);
      events := events + [Thread(i, Act.DrainFinal)];
    }

    /** Settles the run exactly when nothing was accepted since the last drain. */
    method SettleIfEmpty(session: string, run: string, ghost i: nat, ghost inbox: SteeringInbox)
      returns (settled: bool, error: Option<SteeringError>)
      requires Valid() && IsRun(i, session, run, inbox) && PhaseOf(i).Idle?
      modifies this`events, registry`inboxes, inbox
      ensures Valid() && events == old(events) + [Thread(i, Act.SettleIfEmpty)] && IsRun(i, session, run, inbox)
      ensures error.None? && (settled <==> old(inbox.drafts) == [])
      ensures PhaseOf(i) == if settled then Finished else Idle
    {
      hide Execute, TableMirrors, Good, SettleStep;
      RegistryIsValid();
      ghost var s := Now();
      Execute1(events, Thread(i, Act.SettleIfEmpty), registry.capacity);
      Settles(s, i, registry.capacity);
      OpenRunIsFound(s, i, registry.capacity);
      FoundInTable(s, registry.inboxes, created, session);
      RemovedFromTable(registry.inboxes, created, s.registry, session);
      assert InboxMirrors(created[i], s.runs[i]);
      settled, error := registry.SettleIfEmpty(session, run);
      events := events + [Thread(i, Act.SettleIfEmpty)];
    }

    /** The second half of a restore: it puts back what the failed checkpoint left, or gives it up. */
    method Restore(session: string, run: string, inbox: SteeringInbox, failed: seq<Draft>, ghost i: nat)
      returns (error: Option<SteeringError>)
      requires Valid() && IsRun(i, session, run, inbox)
      requires PhaseOf(i).RestoreFound? && PhaseOf(i).left == failed
      modifies this`events, inbox
      ensures Valid() && events == old(events) + [Thread(i, Act.Restore)] && IsRun(i, session, run, inbox)
      ensures error == None || error == Some(AtCapacity)
      ensures inbox.drafts == if error.None? then failed + old(inbox.drafts) else old(inbox.drafts)
      ensures PhaseOf(i) == Idle
      ensures Now().runs[i].settled ==
        old(Now()).runs[i].settled + (if error.Some? then Settle(failed, Lost) else [])
    {
      hide Execute, TableMirrors, Good, RestoreStep;
      RegistryIsValid();
      ghost var s := Now();
      Execute1(events, Thread(i, Act.Restore), registry.capacity);
      Restores(s, i, registry.capacity);
      OpenRunIsFound(s, i, registry.capacity);
      assert InboxMirrors(created[i], s.runs[i]);
      error := inbox.Restore(run, failed);
      events := events + [Thread(i, Act.Restore)];
    }

    /** The first half of closing: from now on no caller finds the inbox. */
    method Remove(session: string, run: string, ghost i: nat, ghost own: SteeringInbox)
      returns (inbox: Option<SteeringInbox>, error: Option<SteeringError>)
      requires Valid() && IsRun(i, session, run, own) && PhaseOf(i).Idle?
      modifies this`events, registry`inboxes
      ensures Valid() && events == old(events) + [Thread(i, Act.Remove)] && IsRun(i, session, run, own)
      ensures error.None? && inbox == Some(own) && PhaseOf(i) == Removed
      ensures session !in registry.inboxes
    {
      hide Execute, TableMirrors, Good, RemoveStep;
      RegistryIsValid();
      ghost var s := Now();
      Execute1(events, Thread(i, Act.Remove), registry.capacity);
      Removes(s, i, registry.capacity);
      OpenRunIsFound(s, i, registry.capacity);
      FoundInTable(s, registry.inboxes, created, session);
      RemovedFromTable(registry.inboxes, created, s.registry, session);
      assert InboxMirrors(created[i], s.runs[i]);
      inbox, error := registry.Remove(session, run);
      events := events + [Thread(i, Act.Remove)];
    }

    /** The second half: everything that was accepted up to now is returned. */
    method Close(session: string, run: string, inbox: SteeringInbox, ghost i: nat)
      returns (returned: seq<Draft>, error: Option<SteeringError>)
      requires Valid() && IsRun(i, session, run, inbox) && PhaseOf(i).Removed?
      modifies this`events, inbox
      ensures Valid() && events == old(events) + [Thread(i, Act.Close)] && IsRun(i, session, run, inbox)
      ensures error.None? && returned == old(inbox.drafts) && PhaseOf(i) == Finished
      ensures Now().runs[i].settled == old(Now()).runs[i].settled + Settle(returned, Returned)
    {
      hide Execute, TableMirrors, Good, CloseStep, WithRun;
      RegistryIsValid();
      ghost var s := Now();
      Execute1(events, Thread(i, Act.Close), registry.capacity);
      Closes(s, i, registry.capacity);
      OpenRunIsFound(s, i, registry.capacity);
      assert InboxMirrors(created[i], s.runs[i]);
      returned, error := inbox.Close(run);
      events := events + [Thread(i, Act.Close)];
    }
  }
}
