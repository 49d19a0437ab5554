/** Serialised operations per session (internal/assistant/session_operations.go). */
module SessionOperations {

  // ----- the protocol -----

  /**
   * One call of acquire. After the release function has put the token back, or the wait has been cancelled, the call
   * still owes its reference. Running the release function again does nothing.
   */
  datatype Phase = Waiting | Holding | Releasing | Cancelling | Gone

  datatype Client = Client(session: string, slot: nat, phase: Phase)

  datatype Slot = Slot(session: string, token: bool, refs: int)

  /** Slots are named in the order of their creation; the table knows the current one of a session. */
  datatype State = State(table: map<string, nat>, slots: seq<Slot>, clients: seq<Client>)

  datatype Event =
    | Enter(session: string)
    | Take(client: nat)
    | SeeCancelled(client: nat)
    | Release(client: nat)
    | DropReference(client: nat)

  function WithPhase(s: State, i: nat, phase: Phase): State
    requires i < |s.clients|
  {
    s.(clients := s.clients[i := s.clients[i].(phase := phase)])
  }

  function EnterStep(s: State, session: string): State {
    if session in s.table then
      var k := s.table[session];
      if k < |s.slots| then
        State(
          s.table, s.slots[k := s.slots[k].(refs := s.slots[k].refs + 1)], s.clients + [Client(session, k, Waiting)])
      else s
    else
      State(
        s.table[session := |s.slots|], s.slots + [Slot(session, false, 1)],
        s.clients + [Client(session, |s.slots|, Waiting)])
  }

  predicate Known(s: State, i: nat) {
    i < |s.clients| && s.clients[i].slot < |s.slots|
  }

  /** Sends the token when the channel has room. */
  function TakeStep(s: State, i: nat): State
    requires Known(s, i)
  {
    var k := s.clients[i].slot;
    if s.clients[i].phase != Waiting || s.slots[k].token then s
    else WithPhase(s.(slots := s.slots[k := s.slots[k].(token := true)]), i, Holding)
  }

  /** Receives the token; this waits while the channel is empty. */
  function ReleaseStep(s: State, i: nat): State
    requires Known(s, i)
  {
    var k := s.clients[i].slot;
    if s.clients[i].phase != Holding || !s.slots[k].token then s
    else WithPhase(s.(slots := s.slots[k := s.slots[k].(token := false)]), i, Releasing)
  }

  function DropStep(s: State, i: nat): State
    requires Known(s, i)
  {
    var client := s.clients[i];
    var k := client.slot;
    if client.phase != Releasing && client.phase != Cancelling then s
    else
      var refs := s.slots[k].refs - 1;
      var next := WithPhase(s.(slots := s.slots[k := s.slots[k].(refs := refs)]), i, Gone);
      if refs == 0 && client.session in s.table && s.table[client.session] == k then
        next.(table := s.table - {client.session})
      else next
  }

  function Step(s: State, e: Event): State {
    match e
    case Enter(session) => EnterStep(s, session)
    case Take(i) => if Known(s, i) then TakeStep(s, i) else s
    case SeeCancelled(i) =>
      if i < |s.clients| && s.clients[i].phase == Waiting then WithPhase(s, i, Cancelling) else s
    case Release(i) => if Known(s, i) then ReleaseStep(s, i) else s
    case DropReference(i) => if Known(s, i) then DropStep(s, i) else s
  }

  function Execute(events: seq<Event>): State {
    if events == [] then State(map[], [], []) else Step(Execute(events[..|events| - 1]), events[|events| - 1])
  }

  // ----- the invariant -----

  predicate Attached(c: Client, k: nat) {
    c.slot == k && c.phase != Gone
  }

  predicate Holds(c: Client, k: nat) {
    c.slot == k && c.phase == Holding
  }

  /** Clients that hold a reference of slot k: holders, waiters and those that have yet to drop it. */
  function Attachments(clients: seq<Client>, k: nat): nat {
    if clients == [] then 0
    else Attachments(clients[..|clients| - 1], k) + (if Attached(clients[|clients| - 1], k) then 1 else 0)
  }

  function Holders(clients: seq<Client>, k: nat): nat {
    if clients == [] then 0
    else Holders(clients[..|clients| - 1], k) + (if Holds(clients[|clients| - 1], k) then 1 else 0)
  }

  ghost predicate SlotIsGood(s: State, k: nat)
    requires k < |s.slots|
  {
    var slot := s.slots[k];
    && slot.refs == Attachments(s.clients, k)
    && Holders(s.clients, k) == (if slot.token then 1 else 0)
    && (slot.refs > 0 <==> slot.session in s.table && s.table[slot.session] == k)
  }

  ghost predicate Good(s: State) {
    && (forall session | session in s.table ::
      s.table[session] < |s.slots| && s.slots[s.table[session]].session == session)
    && (forall i | 0 <= i < |s.clients| :: Known(s, i) && s.slots[s.clients[i].slot].session == s.clients[i].session)
    && (forall k | 0 <= k < |s.slots| :: SlotIsGood(s, k))
  }

  lemma {:induction false} CountUpdate(clients: seq<Client>, i: nat, c: Client, k: nat)
    requires i < |clients|
    ensures Attachments(clients[i := c], k) ==
      Attachments(clients, k) - (if Attached(clients[i], k) then 1 else 0) + (if Attached(c, k) then 1 else 0)
    ensures Holders(clients[i := c], k) ==
      Holders(clients, k) - (if Holds(clients[i], k) then 1 else 0) + (if Holds(c, k) then 1 else 0)
  {
    var n := |clients| - 1;
    if i == n {
      assert clients[i := c][..n] == clients[..n];
    } else {
      assert clients[i := c][..n] == clients[..n][i := c];
      CountUpdate(clients[..n], i, c, k);
    }
  }

  lemma CountAppend(clients: seq<Client>, c: Client, k: nat)
    ensures Attachments(clients + [c], k) == Attachments(clients, k) + (if Attached(c, k) then 1 else 0)
    ensures Holders(clients + [c], k) == Holders(clients, k) + (if Holds(c, k) then 1 else 0)
  {
    assert (clients + [c])[..|clients|] == clients;
  }

  lemma {:induction false} NoneOfUnusedSlot(clients: seq<Client>, k: nat)
    requires forall i | 0 <= i < |clients| :: clients[i].slot != k
    ensures Attachments(clients, k) == 0 && Holders(clients, k) == 0
  {
    if clients != [] {
      NoneOfUnusedSlot(clients[..|clients| - 1], k);
    }
  }

  lemma {:induction false} CountsAtLeast(clients: seq<Client>, i: nat, k: nat)
    requires i < |clients|
    ensures Attached(clients[i], k) ==> Attachments(clients, k) >= 1
    ensures Holds(clients[i], k) ==> Holders(clients, k) >= 1
  {
    if i < |clients| - 1 {
      CountsAtLeast(clients[..|clients| - 1], i, k);
    }
  }

  lemma {:induction false} TwoHolders(clients: seq<Client>, i: nat, j: nat, k: nat)
    requires i < j < |clients| && Holds(clients[i], k) && Holds(clients[j], k)
    ensures Holders(clients, k) >= 2
  {
    var n := |clients| - 1;
    if j < n {
      TwoHolders(clients[..n], i, j, k);
    } else {
      CountsAtLeast(clients[..n], i, k);
    }
  }

  lemma EnterKeepsGood(s: State, session: string)
    requires Good(s)
    ensures Good(EnterStep(s, session))
  {
    hide Attached, Holds, Attachments, Holders;
    var t := EnterStep(s, session);
    var c := t.clients[|s.clients|];
    EnteredCounts(c);
    forall k | 0 <= k < |t.slots| ensures SlotIsGood(t, k) {
      CountAppend(s.clients, c, k);
      EnteredElsewhere(c, k);
      if k < |s.slots| {
        assert SlotIsGood(s, k);
      } else {
        NoneOfUnusedSlot(s.clients, k);
      }
    }
  }

  lemma EnteredCounts(c: Client)
    requires c.phase == Waiting
    ensures Attached(c, c.slot) && !Holds(c, c.slot)
  {
  }

  lemma EnteredElsewhere(c: Client, k: nat)
    requires c.slot != k || c.phase == Waiting
    ensures (c.slot != k ==> !Attached(c, k)) && !Holds(c, k)
  {
  }

  /** A step of client i on its own slot: the slot's counts and its place in the table move together. */
  lemma ClientStepKeepsGood(s: State, t: State, i: nat)
    requires Good(s) && Known(s, i)
    requires |t.clients| == |s.clients|
    requires var c, k := s.clients[i], s.clients[i].slot;
      && t.clients == s.clients[i := c.(phase := t.clients[i].phase)]
      && |t.slots| == |s.slots| && t.slots == s.slots[k := t.slots[k]]
      && t.slots[k].session == s.slots[k].session
      && (t.table == s.table || t.table == s.table - {c.session})
      && SlotIsGood(t, k)
      && (t.table != s.table ==> c.session in s.table && s.table[c.session] == k)
    ensures Good(t)
  {
    hide Attachments, Holders;
    var k0 := s.clients[i].slot;
    forall k | 0 <= k < |t.slots| ensures SlotIsGood(t, k) {
      if k != k0 {
        assert SlotIsGood(s, k);
        CountUpdate(s.clients, i, t.clients[i], k);
      }
    }
  }

  lemma TakeKeepsGood(s: State, i: nat)
    requires Good(s) && Known(s, i)
    ensures Good(TakeStep(s, i))
  {
    hide Attachments, Holders;
    var t := TakeStep(s, i);
    var k := s.clients[i].slot;
    if t != s {
      assert SlotIsGood(s, k);
      CountUpdate(s.clients, i, t.clients[i], k);
      ClientStepKeepsGood(s, t, i);
    }
  }

  lemma ReleaseKeepsGood(s: State, i: nat)
    requires Good(s) && Known(s, i)
    ensures Good(ReleaseStep(s, i))
  {
    hide Attachments, Holders;
    var t := ReleaseStep(s, i);
    var k := s.clients[i].slot;
    if t != s {
      assert SlotIsGood(s, k);
      CountUpdate(s.clients, i, t.clients[i], k);
      ClientStepKeepsGood(s, t, i);
    }
  }

  lemma CancelKeepsGood(s: State, i: nat)
    requires Good(s) && Known(s, i) && s.clients[i].phase == Waiting
    ensures Good(WithPhase(s, i, Cancelling))
  {
    hide Attachments, Holders;
    var t := WithPhase(s, i, Cancelling);
    var k := s.clients[i].slot;
    assert SlotIsGood(s, k);
    CountUpdate(s.clients, i, t.clients[i], k);
    ClientStepKeepsGood(s, t, i);
  }

  lemma DropKeepsGood(s: State, i: nat)
    requires Good(s) && Known(s, i)
    ensures Good(DropStep(s, i))
  {
    hide Attachments, Holders;
    var t := DropStep(s, i);
    var k := s.clients[i].slot;
    if t != s {
      assert SlotIsGood(s, k);
      CountsAtLeast(s.clients, i, k);
      CountUpdate(s.clients, i, t.clients[i], k);
      ClientStepKeepsGood(s, t, i);
    }
  }

  lemma {:induction false} CoordinatorIsGood(events: seq<Event>)
    ensures Good(Execute(events))
  {
    hide Good, EnterStep, TakeStep, ReleaseStep, DropStep, WithPhase;
    if events == [] {
      assert Good(State(map[], [], [])) by {
        NothingIsGood();
      }
    } else {
      var n := |events| - 1;
      CoordinatorIsGood(events[..n]);
      var s := Execute(events[..n]);
      match events[n]
      case Enter(session) => EnterKeepsGood(s, session);
      case Take(i) => if Known(s, i) { TakeKeepsGood(s, i); }
      case SeeCancelled(i) =>
        if i < |s.clients| && s.clients[i].phase == Waiting {
          ClientsAreKnown(s, i);
          CancelKeepsGood(s, i);
        }
      case Release(i) => if Known(s, i) { ReleaseKeepsGood(s, i); }
      case DropReference(i) => if Known(s, i) { DropKeepsGood(s, i); }
    }
  }

  lemma NothingIsGood()
    ensures Good(State(map[], [], []))
  {
  }

  lemma ClientsAreKnown(s: State, i: nat)
    requires Good(s) && i < |s.clients|
    ensures Known(s, i)
  {
  }

  // ----- what the protocol promises -----

  lemma AttachedMeansCurrent(s: State, i: nat)
    requires Good(s) && i < |s.clients| && s.clients[i].phase != Gone
    ensures Known(s, i) && s.clients[i].session in s.table && s.table[s.clients[i].session] == s.clients[i].slot
  {
    var k := s.clients[i].slot;
    assert Known(s, i) && SlotIsGood(s, k);
    CountsAtLeast(s.clients, i, k);
  }

  /**
   * In every interleaving at most one call holds a session, even when the session's slot has been deleted and created
   * again in between.
   */
  lemma AtMostOneHolder(events: seq<Event>, i: nat, j: nat)
    requires i < j < |Execute(events).clients|
    requires Execute(events).clients[i].phase == Execute(events).clients[j].phase == Holding
    ensures Execute(events).clients[i].session != Execute(events).clients[j].session
  {
    CoordinatorIsGood(events);
    hide Execute, Attachments, Holders;
    var s := Execute(events);
    AttachedMeansCurrent(s, i);
    AttachedMeansCurrent(s, j);
    var k := s.clients[i].slot;
    assert SlotIsGood(s, k);
    if s.clients[j].slot == k {
      TwoHolders(s.clients, i, j, k);
    }
  }

  /** All calls of a session that still own a reference share one slot, and the table knows it. */
  lemma OneSlotPerSession(events: seq<Event>, i: nat, j: nat)
    requires i < |Execute(events).clients| && j < |Execute(events).clients|
    requires Execute(events).clients[i].session == Execute(events).clients[j].session
    requires Execute(events).clients[i].phase != Gone && Execute(events).clients[j].phase != Gone
    ensures Execute(events).clients[i].slot == Execute(events).clients[j].slot
  {
    CoordinatorIsGood(events);
    hide Execute, Good;
    AttachedMeansCurrent(Execute(events), i);
    AttachedMeansCurrent(Execute(events), j);
  }

  /** A session is in the table exactly while some call owns a reference to its slot: no slot leaks. */
  lemma TableHoldsWhatIsUsed(events: seq<Event>, session: string)
    ensures session in Execute(events).table <==>
      exists i: nat :: i < |Execute(events).clients|
        && Execute(events).clients[i].session == session && Execute(events).clients[i].phase != Gone
  {
    CoordinatorIsGood(events);
    hide Execute, Holders;
    var s := Execute(events);
    if session in s.table {
      var k := s.table[session];
      assert SlotIsGood(s, k);
      var i := SomeAttached(s.clients, k);
      assert s.slots[s.clients[i].slot].session == s.clients[i].session;
    }
    forall i: nat | i < |s.clients| && s.clients[i].session == session && s.clients[i].phase != Gone
      ensures session in s.table
    {
      AttachedMeansCurrent(s, i);
    }
  }

  lemma {:induction false} SomeAttached(clients: seq<Client>, k: nat) returns (i: nat)
    requires Attachments(clients, k) > 0
    ensures i < |clients| && Attached(clients[i], k)
  {
    var n := |clients| - 1;
    if Attached(clients[n], k) {
      i := n;
    } else {
      i := SomeAttached(clients[..n], k);
    }
  }

  /** A holder's release never waits, and a waiter may take the token whenever nobody holds its session. */
  lemma NobodyIsStuck(events: seq<Event>, i: nat)
    requires i < |Execute(events).clients|
    ensures var s := Execute(events);
      && Known(s, i)
      && (s.clients[i].phase == Holding ==> ReleaseStep(s, i) != s)
      && (s.clients[i].phase == Waiting
        && (forall j | 0 <= j < |s.clients| && s.clients[j].session == s.clients[i].session ::
          s.clients[j].phase != Holding)
        ==> TakeStep(s, i).clients[i].phase == Holding)
  {
    CoordinatorIsGood(events);
    hide Execute, Attachments;
    var s := Execute(events);
    var k := s.clients[i].slot;
    assert Known(s, i) && SlotIsGood(s, k);
    CountsAtLeast(s.clients, i, k);
    if s.clients[i].phase == Holding {
      assert ReleaseStep(s, i).clients[i].phase == Releasing;
    }
    if s.clients[i].phase == Waiting && s.slots[k].token {
      var j := SomeHolder(s.clients, k);
      assert s.slots[s.clients[j].slot].session == s.clients[j].session;
    }
  }

  lemma {:induction false} SomeHolder(clients: seq<Client>, k: nat) returns (i: nat)
    requires Holders(clients, k) > 0
    ensures i < |clients| && Holds(clients[i], k)
  {
    var n := |clients| - 1;
    if Holds(clients[n], k) {
      i := n;
    } else {
      i := SomeHolder(clients[..n], k);
    }
  }

  // ----- the coordinator -----

  class SessionOperationSlot {
    /** The channel of capacity one holds its token. */
    var token: bool
    var refs: int

    constructor ()
      ensures !token && refs == 0
    {
      token, refs := false, 0;
    }

    /** The first case of the select, when the channel has room. */
    method TryTake() returns (taken: bool)
      modifies this`token
      ensures taken <==> !old(token)
      ensures token
    {
      taken := !token;
      token := true;
    }
  }

  lemma ExecuteNext(events: seq<Event>, e: Event)
    ensures Execute(events + [e]) == Step(Execute(events), e)
  {
    assert (events + [e])[..|events|] == events;
  }

  /** What entering leaves of a state, and what it adds. */
  lemma Entered(s: State, session: string)
    requires session in s.table ==> s.table[session] < |s.slots|
    ensures var t := EnterStep(s, session);
      var k := if session in s.table then s.table[session] else |s.slots|;
      && t.table == s.table[session := k]
      && |t.slots| == (if session in s.table then |s.slots| else |s.slots| + 1)
      && (forall j | 0 <= j < |s.slots| && j != k :: t.slots[j] == s.slots[j])
      && t.slots[k].token == (if session in s.table then s.slots[k].token else false)
      && t.slots[k].refs == (if session in s.table then s.slots[k].refs else 0) + 1
      && |t.clients| == |s.clients| + 1 && t.clients[|s.clients|] == Client(session, k, Waiting)
  {
  }

  lemma Dropped(s: State, i: nat)
    requires Good(s) && Known(s, i) && s.clients[i].phase in {Releasing, Cancelling}
    ensures var t := DropStep(s, i);
      var k := s.clients[i].slot;
      && |t.clients| == |s.clients| && t.clients[i].phase == Gone
      && |t.slots| == |s.slots| && (forall j | 0 <= j < |s.slots| && j != k :: t.slots[j] == s.slots[j])
      && t.slots[k].token == s.slots[k].token && t.slots[k].refs == s.slots[k].refs - 1
      && s.clients[i].session in s.table && s.table[s.clients[i].session] == k
      && t.table == if t.slots[k].refs == 0 then s.table - {s.clients[i].session} else s.table
  {
    AttachedMeansCurrent(s, i);
  }

  ghost predicate SlotMirrors(slot: SessionOperationSlot, value: Slot)
    reads slot
  {
    slot.token == value.token && slot.refs == value.refs
  }

  ghost predicate Distinct(created: seq<SessionOperationSlot>) {
    forall i, j | 0 <= i < j < |created| :: created[i] != created[j]
  }

  /** Both tables name the same slots. */
  ghost predicate TableMirrors(
    slots: map<string, SessionOperationSlot>, created: seq<SessionOperationSlot>, table: map<string, nat>)
  {
    && slots.Keys == table.Keys
    && forall session | session in slots ::
      table[session] < |created| && slots[session] == created[table[session]]
  }

  lemma AddedToTable(
    slots: map<string, SessionOperationSlot>, created: seq<SessionOperationSlot>, table: map<string, nat>,
    session: string, slot: SessionOperationSlot)
    requires TableMirrors(slots, created, table)
    ensures TableMirrors(slots[session := slot], created + [slot], table[session := |created|])
  {
  }

  lemma RemovedFromTable(
    slots: map<string, SessionOperationSlot>, created: seq<SessionOperationSlot>, table: map<string, nat>,
    session: string)
    requires TableMirrors(slots, created, table)
    ensures TableMirrors(slots - {session}, created, table - {session})
  {
  }

  lemma FoundInTable(
    slots: map<string, SessionOperationSlot>, created: seq<SessionOperationSlot>, table: map<string, nat>,
    session: string)
    requires TableMirrors(slots, created, table)
    ensures session in slots <==> session in table
    ensures session in slots ==> table[session] < |created| && slots[session] == created[table[session]]
    ensures session in slots ==> table == table[session := table[session]]
  {
  }

  /**
   * `events` are the steps that all calls have taken so far, and `created` the slots in the order of their creation.
   * Every method takes one step, so what is proved of executions holds of the objects.
   */
  class SessionOperationCoordinator {
    var slots: map<string, SessionOperationSlot>
    ghost var events: seq<Event>
    ghost var created: seq<SessionOperationSlot>

    /** The objects are in this state. */
    ghost predicate Mirrors(s: State)
      reads this, created
    {
      && |created| == |s.slots|
      && Distinct(created)
      && (forall k | 0 <= k < |created| :: SlotMirrors(created[k], s.slots[k]))
      && TableMirrors(slots, created, s.table)
    }

    /** The objects are in the state that the steps lead to. */
    ghost predicate Valid()
      reads this, created
    {
      Mirrors(Execute(events))
    }

    /** Call i of acquire is in this phase, and owns a reference to this slot under this session. */
    ghost predicate Owns(i: nat, session: string, slot: SessionOperationSlot, phase: Phase)
      reads this
    {
      OwnsIn(Execute(events), i, session, slot, phase)
    }

    ghost predicate OwnsIn(s: State, i: nat, session: string, slot: SessionOperationSlot, phase: Phase)
      reads this
    {
      && Known(s, i) && |created| == |s.slots| && phase != Gone
      && s.clients[i] == Client(session, s.clients[i].slot, phase)
      && created[s.clients[i].slot] == slot
    }

    constructor ()
      ensures Valid() && slots == map[] && events == []
    {
      slots, events, created := map[], [], [];
    }

    /** The locked part of acquire: finds or creates the session's slot and takes a reference. */
    method Enter(session: string) returns (slot: SessionOperationSlot, ghost i: nat)
      requires Valid()
      modifies this, created
      ensures Valid() && events == old(events) + [Event.Enter(session)]
      ensures i == |Execute(old(events)).clients| && Owns(i, session, slot, Waiting)
      ensures session in old(slots) ==> slots == old(slots) && slot == slots[session]
      ensures session !in old(slots) ==> fresh(slot) && slots == old(slots)[session := slot]
      ensures forall k | 0 <= k < |old(created)| :: k < |created| && created[k] == old(created)[k]
    {
      hide Execute, EnterStep, TableMirrors;
      ghost var e := Event.Enter(session);
      ghost var s := Execute(events);
      FoundInTable(slots, created, s.table, session);
      Entered(s, session);
      ExecuteNext(events, e);
      i := |s.clients|;
      if session in slots {
        slot := slots[session];
      } else {
        slot := new SessionOperationSlot();
        AddedToTable(slots, created, s.table, session, slot);
        slots := slots[session := slot];
        created := created + [slot];
      }
      slot.refs := slot.refs + 1;
      events := events + [e];
    }

    /** Sends the token when the channel has room; otherwise the call goes on waiting. */
    method Take(session: string, slot: SessionOperationSlot, ghost i: nat) returns (taken: bool)
      requires Valid() && Owns(i, session, slot, Waiting)
      modifies this`events, slot`token
      ensures Valid() && events == old(events) + [Event.Take(i)]
      ensures taken <==> !old(slot.token)
      ensures Owns(i, session, slot, if taken then Holding else Waiting)
    {
      ExecuteNext(events, Event.Take(i));
      taken := slot.TryTake();
      events := events + [Event.Take(i)];
    }

    /** The first half of the release function. The channel is never empty here, so a holder does not wait. */
    method Release(session: string, slot: SessionOperationSlot, ghost i: nat)
      requires Valid() && Owns(i, session, slot, Holding)
      modifies this`events, slot`token
      ensures old(slot.token)
      ensures Valid() && events == old(events) + [Event.Release(i)]
      ensures Owns(i, session, slot, Releasing)
    {
      ExecuteNext(events, Event.Release(i));
      NobodyIsStuck(events, i);
      slot.token := false;
      events := events + [Event.Release(i)];
    }

    /** The context ends while the call waits. */
    ghost method SeeCancelled(session: string, slot: SessionOperationSlot, i: nat)
      requires Valid() && Owns(i, session, slot, Waiting)
      modifies this`events
      ensures Valid() && events == old(events) + [Event.SeeCancelled(i)]
      ensures Owns(i, session, slot, Cancelling)
    {
      ExecuteNext(events, Event.SeeCancelled(i));
      events := events + [Event.SeeCancelled(i)];
    }

    /** Gives a reference back; the last one removes the slot, unless another slot has replaced it. */
    method ReleaseReference(session: string, slot: SessionOperationSlot, ghost i: nat)
      requires Valid() && (Owns(i, session, slot, Releasing) || Owns(i, session, slot, Cancelling))
      modifies this`slots, this`events, slot`refs
      ensures Valid() && events == old(events) + [DropReference(i)]
      ensures Execute(events).clients[i].phase == Gone
      ensures slots == if slot.refs == 0 then old(slots) - {session} else old(slots)
    {
      hide Execute, Good, DropStep, TableMirrors;
      ghost var s := Execute(events);
      CoordinatorIsGood(events);
      Dropped(s, i);
      ExecuteNext(events, DropReference(i));
      FoundInTable(slots, created, s.table, session);
      RemovedFromTable(slots, created, s.table, session);
      slot.refs := slot.refs - 1;
      if slot.refs == 0 && session in slots && slots[session] == slot {
        slots := slots - {session};
      }
      events := events + [DropReference(i)];
    }
  }
}
