/** Steering inboxes and their registry (internal/assistant/steering_inbox.go). */
module Steering {
  import opened Text

  const DEFAULT_CAPACITY := 32

  datatype Image = Image(name: string, mimeType: string, data: seq<int>)

  datatype Draft = Draft(text: string, images: seq<Image>, hideUserPrompt: bool)

  datatype SteeringError = Inactive | StaleRun | Closed | AtCapacity

  // ----- what each operation does to an inbox -----

  datatype Inbox = Inbox(runId: string, drafts: seq<Draft>, capacity: nat, closed: bool)

  function NewInbox(runId: string, capacity: nat): Inbox {
    Inbox(runId, [], capacity, false)
  }

  /** Why an operation of this run may not touch the inbox. */
  function Rejection(inbox: Inbox, runId: string): Option<SteeringError> {
    if inbox.runId != runId then Some(StaleRun) else if inbox.closed then Some(Closed) else None
  }

  function AcceptError(inbox: Inbox, runId: string): Option<SteeringError> {
    if Rejection(inbox, runId).Some? then Rejection(inbox, runId)
    else if |inbox.drafts| >= inbox.capacity then Some(AtCapacity)
    else None
  }

  function Accepted(inbox: Inbox, runId: string, draft: Draft): Inbox {
    if AcceptError(inbox, runId).Some? then inbox else inbox.(drafts := inbox.drafts + [draft])
  }

  function Drained(inbox: Inbox, runId: string): Inbox {
    if Rejection(inbox, runId).Some? then inbox else inbox.(drafts := [])
  }

  function RestoreError(inbox: Inbox, runId: string, drafts: seq<Draft>): Option<SteeringError> {
    if drafts == [] then None
    else if Rejection(inbox, runId).Some? then Rejection(inbox, runId)
    else if |inbox.drafts| + |drafts| > inbox.capacity then Some(AtCapacity)
    else None
  }

  function Restored(inbox: Inbox, runId: string, drafts: seq<Draft>): Inbox {
    if drafts == [] || RestoreError(inbox, runId, drafts).Some? then inbox
    else inbox.(drafts := drafts + inbox.drafts)
  }

  function Shut(inbox: Inbox, runId: string): Inbox {
    if Rejection(inbox, runId).Some? then inbox else inbox.(drafts := [], closed := true)
  }

  /** Accepting, draining and restoring commute as a queue: what a failed checkpoint puts back stands in front again. */
  lemma RestoreUndoesDrain(inbox: Inbox, runId: string, later: seq<Draft>)
    requires Rejection(inbox, runId).None? && |inbox.drafts| + |later| <= inbox.capacity
    ensures var waiting := Drained(inbox, runId).(drafts := later);
      && RestoreError(waiting, runId, inbox.drafts).None?
      && Restored(waiting, runId, inbox.drafts) == inbox.(drafts := inbox.drafts + later)
  {
    assert inbox.drafts == [] ==> inbox.drafts + later == later;
  }

  // ----- one inbox -----

  class SteeringInbox {
    const runId: string
    const capacity: nat
    var drafts: seq<Draft>
    var closed: bool

    ghost function Value(): Inbox
      reads this
    {
      Inbox(runId, drafts, capacity, closed)
    }

    constructor (runId: string, capacity: nat)
      ensures Value() == NewInbox(runId, capacity)
    {
      this.runId, this.capacity, drafts, closed := runId, capacity, [], false;
    }

    method Accept(run: string, draft: Draft) returns (error: Option<SteeringError>)
      modifies this
      ensures error == AcceptError(old(Value()), run)
      ensures Value() == Accepted(old(Value()), run, draft)
    {
      if runId != run {
        return Some(StaleRun);
      }
      if closed {
        return Some(Closed);
      }
      if |drafts| >= capacity {
        return Some(AtCapacity);
      }
      drafts := drafts + [draft];
      error := None;
    }

    method Drain(run: string) returns (drained: seq<Draft>, error: Option<SteeringError>)
      modifies this
      ensures error == Rejection(old(Value()), run)
      ensures drained == (if error.None? then old(drafts) else [])
      ensures Value() == Drained(old(Value()), run)
    {
      if runId != run {
        return [], Some(StaleRun);
      }
      if closed {
        return [], Some(Closed);
      }
      drained, error := drafts, None;
      drafts := [];
    }

    method Restore(run: string, failed: seq<Draft>) returns (error: Option<SteeringError>)
      modifies this
      ensures error == RestoreError(old(Value()), run, failed)
      ensures Value() == Restored(old(Value()), run, failed)
    {
      if |failed| == 0 {
        return None;
      }
      if runId != run {
        return Some(StaleRun);
      }
      if closed {
        return Some(Closed);
      }
      if |drafts| + |failed| > capacity {
        return Some(AtCapacity);
      }
      drafts := failed + drafts;
      error := None;
    }

    method Close(run: string) returns (returned: seq<Draft>, error: Option<SteeringError>)
      modifies this
      ensures error == Rejection(old(Value()), run)
      ensures returned == (if error.None? then old(drafts) else [])
      ensures Value() == Shut(old(Value()), run)
    {
      if runId != run {
        return [], Some(StaleRun);
      }
      if closed {
        return [], Some(Closed);
      }
      closed := true;
      returned, error := drafts, None;
      drafts := [];
    }
  }

  // ----- the registry -----

  /** Sessions map to their active inboxes; no inbox serves two sessions. */
  class SteeringInboxRegistry {
    const capacity: nat
    var inboxes: map<string, SteeringInbox>

    ghost predicate Valid()
      reads this, inboxes.Values
    {
      && capacity > 0
      && (forall s, t | s in inboxes && t in inboxes && s != t :: inboxes[s] != inboxes[t])
      && (forall s | s in inboxes :: inboxes[s].capacity == capacity)
    }

    constructor (capacity: int)
      ensures Valid() && inboxes == map[]
      ensures this.capacity == if capacity <= 0 then DEFAULT_CAPACITY else capacity
    {
      this.capacity := if capacity <= 0 then DEFAULT_CAPACITY else capacity;
      inboxes := map[];
    }

    method Register(session: string, run: string) returns (error: Option<SteeringError>)
      requires Valid()
      modifies this`inboxes
      ensures Valid()
      ensures error == if session in old(inboxes) then Some(StaleRun) else None
      ensures error.Some? ==> inboxes == old(inboxes)
      ensures error.None? ==>
        && inboxes.Keys == old(inboxes.Keys) + {session} && fresh(inboxes[session])
        && (forall s | s in old(inboxes) :: inboxes[s] == old(inboxes[s]))
        && inboxes[session].Value() == NewInbox(run, capacity)
    {
      if session in inboxes {
        return Some(StaleRun);
      }
      var inbox := new SteeringInbox(run, capacity);
      inboxes := inboxes[session := inbox];
      error := None;
    }

    /** The first half of accept, drain and restore: the lock is released before the inbox acts. */
    function Find(session: string): (inbox: Option<SteeringInbox>)
      reads this
      ensures inbox.Some? <==> session in inboxes
      ensures inbox.Some? ==> inboxes[session] == inbox.value
    {
      if session in inboxes then Some(inboxes[session]) else None
    }

    /** Settles an open inbox that holds nothing; nothing can be accepted between the check and the removal. */
    method SettleIfEmpty(session: string, run: string) returns (settled: bool, error: Option<SteeringError>)
      requires Valid()
      modifies this`inboxes, if session in inboxes then {inboxes[session]} else {}
      ensures Valid()
      ensures error ==
        if session !in old(inboxes) then Some(Inactive) else Rejection(old(inboxes[session].Value()), run)
      ensures settled <==> error.None? && old(inboxes[session].drafts) == []
      ensures inboxes == if settled then old(inboxes) - {session} else old(inboxes)
      ensures session in old(inboxes) ==>
        old(inboxes[session]).Value() ==
          if settled then Shut(old(inboxes[session].Value()), run) else old(inboxes[session].Value())
    {
      if session !in inboxes {
        return false, Some(Inactive);
      }
      var inbox := inboxes[session];
      if inbox.runId != run {
        return false, Some(StaleRun);
      }
      if inbox.closed {
        return false, Some(Closed);
      }
      if |inbox.drafts| != 0 {
        return false, None;
      }
      inbox.closed := true;
      inbox.drafts := [];
      inboxes := inboxes - {session};
      settled, error := true, None;
    }

    /** Settles an empty inbox or drains a prefix, in one step. */
    method DrainFinal(session: string, run: string) returns (drained: seq<Draft>, error: Option<SteeringError>)
      requires Valid()
      modifies this`inboxes, if session in inboxes then {inboxes[session]} else {}
      ensures Valid()
      ensures error ==
        if session !in old(inboxes) then Some(Inactive) else Rejection(old(inboxes[session].Value()), run)
      ensures drained == if error.None? then old(inboxes[session].drafts) else []
      ensures inboxes == if error.None? && drained == [] then old(inboxes) - {session} else old(inboxes)
      ensures session in old(inboxes) ==>
        old(inboxes[session]).Value() ==
          if error.None? && drained == [] then Shut(old(inboxes[session].Value()), run)
          else Drained(old(inboxes[session].Value()), run)
    {
      if session !in inboxes {
        return [], Some(Inactive);
      }
      var inbox := inboxes[session];
      if inbox.runId != run {
        return [], Some(StaleRun);
      }
      if inbox.closed {
        return [], Some(Closed);
      }
      if |inbox.drafts| == 0 {
        inbox.closed := true;
        inboxes := inboxes - {session};
        return [], None;
      }
      drained, error := inbox.drafts, None;
      inbox.drafts := [];
    }

    /** The first half of close: removes the inbox of this run; the inbox itself is closed afterwards. */
    method Remove(session: string, run: string) returns (inbox: Option<SteeringInbox>, error: Option<SteeringError>)
      requires Valid()
      modifies this`inboxes
      ensures Valid()
      ensures error ==
        if session !in old(inboxes) then Some(Inactive)
        else if old(inboxes)[session].runId != run then Some(StaleRun) else None
      ensures inboxes == if error.None? then old(inboxes) - {session} else old(inboxes)
      ensures inbox == if error.None? then Some(old(inboxes)[session]) else None
    {
      if session !in inboxes {
        return None, Some(Inactive);
      }
      if inboxes[session].runId != run {
        return None, Some(StaleRun);
      }
      inbox, error := Some(inboxes[session]), None;
      inboxes := inboxes - {session};
    }
  }
}
