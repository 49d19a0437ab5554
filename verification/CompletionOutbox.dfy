/**
 * The completion outbox (internal/database/completion_repository.go). Tables are sequences of rows in insertion order;
 * every operation is one transaction, so an error leaves all tables as they were.
 */
module CompletionOutbox {
  import opened Text
  import opened CompletionText

  const DRAIN_LIMIT := 16
  const PAGE_LIMIT := 256
  const SESSION_ROWS := 1024
  const SESSION_BYTES := 8 * 1024 * 1024
  const GLOBAL_ROWS := 16384
  const GLOBAL_BYTES := 128 * 1024 * 1024

  /** A delivery, with the record of its envelope and the envelope's size. */
  datatype Delivery = Delivery(row: Row, record: Record, bytes: nat, consumed: bool)

  /** A model-facing session entry that carries deliveries. */
  datatype DeliveryEntry = DeliveryEntry(id: string, owner: string, records: seq<Record>)

  datatype Association = Association(entryId: string, deliveryId: string)

  datatype Tables = Tables(
    deliveries: seq<Delivery>,
    nextSequence: map<string, nat>,
    associations: seq<Association>,
    entries: seq<DeliveryEntry>,
    diagnostics: map<string, nat>
  )

  // ----- queries -----

  function OwnRows(ds: seq<Delivery>, owner: string): seq<Delivery> {
    if ds == [] then []
    else
      var n := |ds| - 1;
      OwnRows(ds[..n], owner) + (if ds[n].row.owner == owner then [ds[n]] else [])
  }

  function Pending(ds: seq<Delivery>): seq<Delivery> {
    if ds == [] then []
    else
      var n := |ds| - 1;
      Pending(ds[..n]) + (if ds[n].consumed then [] else [ds[n]])
  }

  function Bytes(ds: seq<Delivery>): nat {
    if ds == [] then 0 else Bytes(ds[..|ds| - 1]) + ds[|ds| - 1].bytes
  }

  function Take<T>(s: seq<T>, n: nat): seq<T> {
    if |s| <= n then s else s[..n]
  }

  /** The oldest pending deliveries of an owner, at most n of them. */
  function PendingPrefix(ds: seq<Delivery>, owner: string, n: nat): seq<Delivery> {
    Take(Pending(OwnRows(ds, owner)), n)
  }

  predicate Exists(ds: seq<Delivery>, owner: string, eventId: string) {
    exists i | 0 <= i < |ds| :: ds[i].row.owner == owner && ds[i].row.eventId == eventId
  }

  predicate IdUsed(ds: seq<Delivery>, id: string) {
    exists i | 0 <= i < |ds| :: ds[i].row.id == id
  }

  predicate EntryUsed(entries: seq<DeliveryEntry>, id: string) {
    exists i | 0 <= i < |entries| :: entries[i].id == id
  }

  // ----- projection -----

  predicate Eligible(ds: seq<Delivery>, source: Source, children: set<string>) {
    && EventState(source.taskKind, source.eventKind) == Some(source.state)
    && (source.taskKind.AgentTask? ==> source.taskId !in children)
    && !Exists(ds, source.owner, source.eventId)
  }

  predicate WithinQuota(ds: seq<Delivery>, owner: string, bytes: nat) {
    && |Pending(OwnRows(ds, owner))| + 1 <= SESSION_ROWS && |Pending(ds)| + 1 <= GLOBAL_ROWS
    && Bytes(Pending(OwnRows(ds, owner))) + bytes <= SESSION_BYTES
    && Bytes(Pending(ds)) + bytes <= GLOBAL_BYTES
  }

  function Counted(counts: map<string, nat>, key: string): map<string, nat> {
    counts[key := if key in counts then counts[key] + 1 else 1]
  }

  function NextOf(next: map<string, nat>, owner: string): nat {
    if owner in next then next[owner] else 1
  }

  function NewDelivery(source: Source, record: Record, bytes: nat, sequence: nat): Delivery {
    Delivery(RowOf(source, record, sequence), record, bytes, false)
  }

  datatype ProjectOutcome = Projected | NotEligible | OverQuota | DuplicateId

  function ProjectOutcomeOf(
    t: Tables, source: Source, record: Record, bytes: nat, children: set<string>): ProjectOutcome
  {
    if !Eligible(t.deliveries, source, children) then NotEligible
    else if !WithinQuota(t.deliveries, source.owner, bytes) then OverQuota
    else if IdUsed(t.deliveries, record.deliveryId) then DuplicateId
    else Projected
  }

  /** An ineligible event changes nothing; a full quota is only counted. */
  function AfterProject(t: Tables, source: Source, record: Record, bytes: nat, children: set<string>): Tables {
    match ProjectOutcomeOf(t, source, record, bytes, children)
    case Projected =>
      var sequence := NextOf(t.nextSequence, source.owner);
      t.(deliveries := t.deliveries + [NewDelivery(source, record, bytes, sequence)],
         nextSequence := t.nextSequence[source.owner := sequence + 1])
    case OverQuota => t.(diagnostics := Counted(t.diagnostics, source.owner))
    case _ => t
  }

  // ----- consumption -----

  datatype ConsumeOutcome =
    | Consumed
    | BadDrainSize
    | NotOwned
    | UnstablePrefix
    | CorruptEnvelope
    | EnvelopeLimit
    | DuplicateEntry

  predicate RowsMatchIds(rows: seq<Delivery>, ids: seq<string>) {
    |rows| == |ids| && forall i | 0 <= i < |rows| :: rows[i].row.id == ids[i]
  }

  /** The stored envelope is small enough and its record passes the reader's checks. */
  predicate Readable(d: Delivery) {
    d.bytes <= ENVELOPE_LIMIT && ValidRecord(d.record, d.row)
  }

  function Records(ds: seq<Delivery>): (r: seq<Record>)
    ensures |r| == |ds| && forall i | 0 <= i < |ds| :: r[i] == ds[i].record
  {
    seq(|ds|, i requires 0 <= i < |ds| => ds[i].record)
  }

  function ConsumeOutcomeOf(
    t: Tables, owner: string, ids: seq<string>, entryId: string, size: seq<Record> -> nat): ConsumeOutcome
  {
    var rows := PendingPrefix(t.deliveries, owner, |ids|);
    if |ids| == 0 || |ids| > DRAIN_LIMIT then BadDrainSize
    else if |rows| != |ids| then NotOwned
    else if !RowsMatchIds(rows, ids) then UnstablePrefix
    else if exists i | 0 <= i < |rows| :: !Readable(rows[i]) then CorruptEnvelope
    else if size(Records(rows)) > ENVELOPE_LIMIT then EnvelopeLimit
    else if EntryUsed(t.entries, entryId) then DuplicateEntry
    else Consumed
  }

  function Mark(d: Delivery, owner: string, ids: seq<string>): Delivery {
    if d.row.owner == owner && !d.consumed && d.row.id in ids then d.(consumed := true) else d
  }

  function MarkAll(ds: seq<Delivery>, owner: string, ids: seq<string>): (r: seq<Delivery>)
    ensures |r| == |ds| && forall i | 0 <= i < |ds| :: r[i] == Mark(ds[i], owner, ids)
  {
    seq(|ds|, i requires 0 <= i < |ds| => Mark(ds[i], owner, ids))
  }

  function Associations(entryId: string, rows: seq<Delivery>): (r: seq<Association>)
    ensures |r| == |rows| && forall i | 0 <= i < |rows| :: r[i] == Association(entryId, rows[i].row.id)
  {
    seq(|rows|, i requires 0 <= i < |rows| => Association(entryId, rows[i].row.id))
  }

  function AfterConsume(
    t: Tables, owner: string, ids: seq<string>, entryId: string, size: seq<Record> -> nat): Tables
  {
    if ConsumeOutcomeOf(t, owner, ids, entryId, size) != Consumed then t
    else
      var rows := PendingPrefix(t.deliveries, owner, |ids|);
      t.(deliveries := MarkAll(t.deliveries, owner, ids),
         associations := t.associations + Associations(entryId, rows),
         entries := t.entries + [DeliveryEntry(entryId, owner, Records(rows))])
  }

  // ----- the invariant -----

  /** What an owner's entries carry, one entry after the other. */
  function Replayed(entries: seq<DeliveryEntry>, owner: string): seq<Record> {
    if entries == [] then []
    else
      var n := |entries| - 1;
      Replayed(entries[..n], owner) + (if entries[n].owner == owner then entries[n].records else [])
  }

  /** Exactly the first c rows are consumed. */
  ghost predicate ConsumedPrefix(rows: seq<Delivery>, c: nat) {
    c <= |rows| && forall k | 0 <= k < |rows| :: rows[k].consumed <==> k < c
  }

  ghost predicate Numbered(rows: seq<Delivery>) {
    forall k | 0 <= k < |rows| :: rows[k].row.sequence == k + 1
  }

  /** The first c deliveries of the owner are consumed, and its entries carry exactly these, in sequence. */
  ghost predicate DeliveredInOrder(rows: seq<Delivery>, replayed: seq<Record>, c: nat) {
    ConsumedPrefix(rows, c) && replayed == Records(rows[..c])
  }

  ghost predicate OwnerIsGood(t: Tables, owner: string) {
    var rows := OwnRows(t.deliveries, owner);
    && Numbered(rows) && NextOf(t.nextSequence, owner) == |rows| + 1
    && (exists c: nat :: DeliveredInOrder(rows, Replayed(t.entries, owner), c))
    && |Pending(rows)| <= SESSION_ROWS && Bytes(Pending(rows)) <= SESSION_BYTES
  }

  ghost predicate KeysAreGood(ds: seq<Delivery>) {
    forall i, j | 0 <= i < j < |ds| ::
      ds[i].row.id != ds[j].row.id && !(ds[i].row.owner == ds[j].row.owner && ds[i].row.eventId == ds[j].row.eventId)
  }

  ghost predicate Associated(associations: seq<Association>, deliveryId: string) {
    exists a | 0 <= a < |associations| :: associations[a].deliveryId == deliveryId
  }

  /** A delivery is consumed exactly when it is tied to an entry, and it is tied to one entry at most. */
  ghost predicate AssociationsAreGood(ds: seq<Delivery>, associations: seq<Association>) {
    && (forall i, j | 0 <= i < j < |associations| :: associations[i].deliveryId != associations[j].deliveryId)
    && (forall i | 0 <= i < |ds| :: ds[i].consumed <==> Associated(associations, ds[i].row.id))
    && (forall a | 0 <= a < |associations| :: IdUsed(ds, associations[a].deliveryId))
  }

  ghost predicate WithinGlobalQuota(ds: seq<Delivery>) {
    |Pending(ds)| <= GLOBAL_ROWS && Bytes(Pending(ds)) <= GLOBAL_BYTES
  }

  /**
   * The writer's record is stored with the row that it describes and with its size, and carries text only if it fits.
   */
  ghost predicate IsStored(d: Delivery, size: seq<Record> -> nat) {
    && (ValidRecord(d.record, d.row) <==> d.row.owner != "" && d.row.eventId != "")
    && d.bytes == size([d.record])
    && FitsOrIsBare(d.record, size)
  }

  ghost predicate RowsAreGood(ds: seq<Delivery>, size: seq<Record> -> nat) {
    forall i | 0 <= i < |ds| :: IsStored(ds[i], size)
  }

  ghost predicate Good(t: Tables, size: seq<Record> -> nat) {
    && KeysAreGood(t.deliveries)
    && RowsAreGood(t.deliveries, size)
    && (forall owner: string :: OwnerIsGood(t, owner))
    && WithinGlobalQuota(t.deliveries)
    && AssociationsAreGood(t.deliveries, t.associations)
  }

  /**
   * A terminal source and the record that the writer produced for it. Each writing has its own redactor, which may fail
   * for one and work for the next.
   */
  datatype Candidate = Candidate(source: Source, record: Record, redact: Redactor)

  ghost predicate Written(candidate: Candidate, size: seq<Record> -> nat) {
    && IsWritten(candidate.record, candidate.source, candidate.record.deliveryId, candidate.redact)
    && FitsOrIsBare(candidate.record, size)
  }

  // ----- projection keeps it -----

  lemma OwnRowsAppend(ds: seq<Delivery>, d: Delivery, owner: string)
    ensures OwnRows(ds + [d], owner) == OwnRows(ds, owner) + (if d.row.owner == owner then [d] else [])
  {
    assert (ds + [d])[..|ds|] == ds;
  }

  lemma PendingAppend(ds: seq<Delivery>, d: Delivery)
    requires !d.consumed
    ensures Pending(ds + [d]) == Pending(ds) + [d] && Bytes(Pending(ds + [d])) == Bytes(Pending(ds)) + d.bytes
  {
    assert (ds + [d])[..|ds|] == ds;
    assert (Pending(ds) + [d])[..|Pending(ds)|] == Pending(ds);
  }

  lemma ProjectKeepsOwner(t: Tables, source: Source, record: Record, bytes: nat, children: set<string>, owner: string)
    requires ProjectOutcomeOf(t, source, record, bytes, children) == Projected && OwnerIsGood(t, owner)
    ensures OwnerIsGood(AfterProject(t, source, record, bytes, children), owner)
  {
    hide Pending, OwnRows, Bytes, Eligible;
    var u := AfterProject(t, source, record, bytes, children);
    var d := u.deliveries[|t.deliveries|];
    var rows := OwnRows(t.deliveries, owner);
    OwnRowsAppend(t.deliveries, d, owner);
    if owner == source.owner {
      var c: nat :| DeliveredInOrder(rows, Replayed(t.entries, owner), c);
      PendingAppend(rows, d);
      assert (rows + [d])[..c] == rows[..c];
      assert DeliveredInOrder(rows + [d], Replayed(u.entries, owner), c);
    } else {
      assert rows + [] == rows;
    }
  }

  lemma ProjectKeepsKeys(ds: seq<Delivery>, d: Delivery)
    requires KeysAreGood(ds) && !Exists(ds, d.row.owner, d.row.eventId) && !IdUsed(ds, d.row.id)
    ensures KeysAreGood(ds + [d])
  {
  }

  lemma ProjectKeepsAssociations(ds: seq<Delivery>, associations: seq<Association>, d: Delivery)
    requires AssociationsAreGood(ds, associations) && !IdUsed(ds, d.row.id) && !d.consumed
    ensures AssociationsAreGood(ds + [d], associations)
  {
    forall a | 0 <= a < |associations| ensures IdUsed(ds + [d], associations[a].deliveryId) {
      var i :| 0 <= i < |ds| && ds[i].row.id == associations[a].deliveryId;
      assert (ds + [d])[i].row.id == associations[a].deliveryId;
    }
  }

  /** Projecting a written record keeps the outbox good, whatever its outcome. */
  lemma ProjectKeepsGood(t: Tables, candidate: Candidate, size: seq<Record> -> nat, children: set<string>)
    requires Good(t, size) && Written(candidate, size)
    ensures Good(AfterProject(t, candidate.source, candidate.record, size([candidate.record]), children), size)
  {
    hide IsWritten, KeysAreGood, IsStored, OwnerIsGood, AssociationsAreGood, Pending, OwnRows, Bytes, FitsOrIsBare;
    var source, record := candidate.source, candidate.record;
    var bytes := size([record]);
    var u := AfterProject(t, source, record, bytes, children);
    if ProjectOutcomeOf(t, source, record, bytes, children) == Projected {
      var d := u.deliveries[|t.deliveries|];
      NextIsPositive(t, source.owner);
      WrittenIsStored(candidate, d.row.sequence, size);
      ProjectKeepsKeys(t.deliveries, d);
      ProjectKeepsAssociations(t.deliveries, t.associations, d);
      PendingAppend(t.deliveries, d);
      forall owner: string ensures OwnerIsGood(u, owner) {
        ProjectKeepsOwner(t, source, record, bytes, children, owner);
      }
    } else {
      forall owner: string ensures OwnerIsGood(u, owner) {
        OwnerIgnoresDiagnostics(t, u, owner);
      }
    }
  }

  lemma WrittenIsStored(candidate: Candidate, sequence: nat, size: seq<Record> -> nat)
    requires Written(candidate, size) && sequence > 0
    requires EventState(candidate.source.taskKind, candidate.source.eventKind) == Some(candidate.source.state)
    ensures IsStored(NewDelivery(candidate.source, candidate.record, size([candidate.record]), sequence), size)
  {
    hide IsWritten, ValidRecord, FitsOrIsBare;
    ReaderAcceptsWriter(candidate.record, candidate.source, candidate.record.deliveryId, candidate.redact, sequence);
  }

  lemma NextIsPositive(t: Tables, owner: string)
    requires OwnerIsGood(t, owner)
    ensures NextOf(t.nextSequence, owner) > 0
  {
  }

  lemma OwnerIgnoresDiagnostics(t: Tables, u: Tables, owner: string)
    requires OwnerIsGood(t, owner) && u == t.(diagnostics := u.diagnostics)
    ensures OwnerIsGood(u, owner)
  {
  }

  // ----- consumption keeps it -----

  lemma {:induction false} OwnRowsOfMarked(ds: seq<Delivery>, owner: string, ids: seq<string>, other: string)
    ensures OwnRows(MarkAll(ds, owner, ids), other) ==
      if other == owner then MarkAll(OwnRows(ds, owner), owner, ids) else OwnRows(ds, other)
  {
    if ds != [] {
      var n := |ds| - 1;
      OwnRowsOfMarked(ds[..n], owner, ids, other);
      assert MarkAll(ds, owner, ids)[..n] == MarkAll(ds[..n], owner, ids);
    }
  }

  lemma {:induction false} MarkingShrinksPending(ds: seq<Delivery>, owner: string, ids: seq<string>)
    ensures |Pending(MarkAll(ds, owner, ids))| <= |Pending(ds)|
    ensures Bytes(Pending(MarkAll(ds, owner, ids))) <= Bytes(Pending(ds))
  {
    if ds != [] {
      var n := |ds| - 1;
      var marked := MarkAll(ds, owner, ids);
      MarkingShrinksPending(ds[..n], owner, ids);
      assert marked[..n] == MarkAll(ds[..n], owner, ids);
      BytesAppend(Pending(ds[..n]), ds[n]);
      BytesAppend(Pending(marked[..n]), marked[n]);
      assert Pending(ds[..n]) + [] == Pending(ds[..n]) && Pending(marked[..n]) + [] == Pending(marked[..n]);
    }
  }

  lemma BytesAppend(ds: seq<Delivery>, d: Delivery)
    ensures Bytes(ds + [d]) == Bytes(ds) + d.bytes
  {
    assert (ds + [d])[..|ds|] == ds;
  }

  /** With a consumed prefix, the pending rows are the rest. */
  lemma {:induction false} PendingIsRest(rows: seq<Delivery>, c: nat)
    requires ConsumedPrefix(rows, c)
    ensures Pending(rows) == rows[c..]
  {
    if rows != [] {
      var n := |rows| - 1;
      if c <= n {
        PendingIsRest(rows[..n], c);
        assert rows[c..] == rows[..n][c..] + [rows[n]];
      } else {
        PendingIsRest(rows[..n], n);
      }
    }
  }

  lemma {:induction false} OwnRowsFrom(ds: seq<Delivery>, owner: string, k: nat)
    requires k < |OwnRows(ds, owner)|
    ensures OwnRows(ds, owner)[k].row.owner == owner
    ensures exists i: nat :: i < |ds| && ds[i] == OwnRows(ds, owner)[k]
  {
    var n := |ds| - 1;
    if k < |OwnRows(ds[..n], owner)| {
      OwnRowsFrom(ds[..n], owner, k);
      var i: nat :| i < n && ds[..n][i] == OwnRows(ds[..n], owner)[k];
      assert ds[i] == OwnRows(ds, owner)[k];
    }
  }

  lemma {:induction false} OwnIdsDiffer(ds: seq<Delivery>, owner: string, j: nat, k: nat)
    requires KeysAreGood(ds) && j < k < |OwnRows(ds, owner)|
    ensures OwnRows(ds, owner)[j].row.id != OwnRows(ds, owner)[k].row.id
  {
    var n := |ds| - 1;
    var before := OwnRows(ds[..n], owner);
    if k < |before| {
      OwnIdsDiffer(ds[..n], owner, j, k);
    } else {
      OwnRowsFrom(ds[..n], owner, j);
      var i: nat :| i < n && ds[..n][i] == before[j];
      assert ds[i].row.id != ds[n].row.id;
    }
  }

  /** Marking the pending prefix of an owner extends its consumed prefix by exactly these rows. */
  lemma MarkedPrefix(ds: seq<Delivery>, owner: string, ids: seq<string>, c: nat)
    requires KeysAreGood(ds) && ConsumedPrefix(OwnRows(ds, owner), c)
    requires RowsMatchIds(PendingPrefix(ds, owner, |ids|), ids)
    ensures c + |ids| <= |OwnRows(ds, owner)|
    ensures PendingPrefix(ds, owner, |ids|) == OwnRows(ds, owner)[c..c + |ids|]
    ensures ConsumedPrefix(MarkAll(OwnRows(ds, owner), owner, ids), c + |ids|)
  {
    var rows := OwnRows(ds, owner);
    PendingIsRest(rows, c);
    var marked := MarkAll(rows, owner, ids);
    var prefix := PendingPrefix(ds, owner, |ids|);
    assert prefix == rows[c..c + |ids|];
    forall k | 0 <= k < |rows| ensures marked[k].consumed <==> k < c + |ids| {
      OwnRowsFrom(ds, owner, k);
      if c <= k < c + |ids| {
        assert ids[k - c] == prefix[k - c].row.id == rows[k].row.id;
      } else if k >= c + |ids| {
        forall i | 0 <= i < |ids| ensures ids[i] != rows[k].row.id {
          OwnIdsDiffer(ds, owner, c + i, k);
          assert prefix[i] == rows[c + i];
        }
      }
    }
  }

  lemma ReplayedAppend(entries: seq<DeliveryEntry>, e: DeliveryEntry, owner: string)
    ensures Replayed(entries + [e], owner) == Replayed(entries, owner) + (if e.owner == owner then e.records else [])
  {
    assert (entries + [e])[..|entries|] == entries;
  }

  lemma ConsumeKeepsOwner(
    t: Tables, owner: string, ids: seq<string>, entryId: string, size: seq<Record> -> nat, other: string)
    requires KeysAreGood(t.deliveries) && OwnerIsGood(t, other)
    requires ConsumeOutcomeOf(t, owner, ids, entryId, size) == Consumed
    ensures OwnerIsGood(AfterConsume(t, owner, ids, entryId, size), other)
  {
    hide Pending, OwnRows, Bytes, KeysAreGood, PendingPrefix, ConsumedPrefix, Replayed, Readable, Mark, MarkAll,
      Numbered;
    var u := AfterConsume(t, owner, ids, entryId, size);
    var prefix := PendingPrefix(t.deliveries, owner, |ids|);
    var e := DeliveryEntry(entryId, owner, Records(prefix));
    OwnRowsOfMarked(t.deliveries, owner, ids, other);
    ReplayedAppend(t.entries, e, other);
    assert u.entries == t.entries + [e];
    if other == owner {
      var rows := OwnRows(t.deliveries, owner);
      var marked := MarkAll(rows, owner, ids);
      var c: nat :| DeliveredInOrder(rows, Replayed(t.entries, owner), c);
      MarkedPrefix(t.deliveries, owner, ids, c);
      MarkingShrinksPending(rows, owner, ids);
      MarkedKeepsRows(rows, owner, ids);
      RecordsOfMarked(rows, marked, prefix, c, |ids|);
      StillNumbered(rows, marked);
      assert DeliveredInOrder(marked, Replayed(u.entries, owner), c + |ids|);
    } else {
      assert Replayed(t.entries, other) + [] == Replayed(t.entries, other);
    }
  }

  lemma StillNumbered(rows: seq<Delivery>, marked: seq<Delivery>)
    requires Numbered(rows) && |marked| == |rows| && forall i | 0 <= i < |rows| :: marked[i].row == rows[i].row
    ensures Numbered(marked)
  {
  }

  lemma RecordsOfMarked(rows: seq<Delivery>, marked: seq<Delivery>, prefix: seq<Delivery>, c: nat, n: nat)
    requires |marked| == |rows| && forall i | 0 <= i < |rows| :: marked[i].record == rows[i].record
    requires c + n <= |rows| && prefix == rows[c..c + n]
    ensures Records(marked[..c + n]) == Records(rows[..c]) + Records(prefix)
  {
  }

  lemma MarkedKeepsRows(ds: seq<Delivery>, owner: string, ids: seq<string>)
    ensures forall i | 0 <= i < |ds| ::
      var marked := MarkAll(ds, owner, ids)[i];
      marked.row == ds[i].row && marked.record == ds[i].record && marked.bytes == ds[i].bytes
  {
  }

  lemma PrefixRow(ds: seq<Delivery>, owner: string, n: nat, c: nat, k: nat) returns (i: nat)
    requires ConsumedPrefix(OwnRows(ds, owner), c) && k < |PendingPrefix(ds, owner, n)|
    ensures i < |ds| && ds[i] == PendingPrefix(ds, owner, n)[k] && ds[i].row.owner == owner && !ds[i].consumed
  {
    var rows := OwnRows(ds, owner);
    PendingIsRest(rows, c);
    assert PendingPrefix(ds, owner, n)[k] == rows[c + k];
    OwnRowsFrom(ds, owner, c + k);
    i :| i < |ds| && ds[i] == rows[c + k];
  }

  lemma ConsumeKeepsAssociations(
    t: Tables, owner: string, ids: seq<string>, entryId: string, size: seq<Record> -> nat)
    requires KeysAreGood(t.deliveries) && OwnerIsGood(t, owner) && AssociationsAreGood(t.deliveries, t.associations)
    requires ConsumeOutcomeOf(t, owner, ids, entryId, size) == Consumed
    ensures var u := AfterConsume(t, owner, ids, entryId, size); AssociationsAreGood(u.deliveries, u.associations)
  {
    hide Pending, OwnRows, Bytes, PendingPrefix, ConsumedPrefix, Replayed, Readable, Associated, IdUsed, Numbered;
    var u := AfterConsume(t, owner, ids, entryId, size);
    var ds := t.deliveries;
    var prefix := PendingPrefix(ds, owner, |ids|);
    var added := Associations(entryId, prefix);
    var c: nat :| DeliveredInOrder(OwnRows(ds, owner), Replayed(t.entries, owner), c);
    forall a, b | 0 <= a < b < |u.associations|
      ensures u.associations[a].deliveryId != u.associations[b].deliveryId
    {
      if b >= |t.associations| {
        AddedIsNew(t, owner, |ids|, c, b - |t.associations|);
        if a >= |t.associations| {
          PrefixIdsDiffer(ds, owner, |ids|, c, a - |t.associations|, b - |t.associations|);
        } else {
          AssociatedAt(t.associations, a);
        }
      }
    }
    forall i | 0 <= i < |ds| ensures u.deliveries[i].consumed <==> Associated(u.associations, u.deliveries[i].row.id) {
      AssociatedMore(t.associations, added, ds[i].row.id);
      AssociatedToPrefix(entryId, prefix, ds[i].row.id);
      MarkedExactly(ds, owner, ids, c, i);
    }
    forall a | 0 <= a < |u.associations| ensures IdUsed(u.deliveries, u.associations[a].deliveryId) {
      UsedAfterMarking(ds, owner, ids, u.associations[a].deliveryId);
      if a >= |t.associations| {
        var i := PrefixRow(ds, owner, |ids|, c, a - |t.associations|);
        UsedAt(ds, i);
      }
    }
  }

  lemma UsedAt(ds: seq<Delivery>, i: nat)
    requires i < |ds|
    ensures IdUsed(ds, ds[i].row.id)
  {
  }

  lemma AssociatedAt(associations: seq<Association>, a: nat)
    requires a < |associations|
    ensures Associated(associations, associations[a].deliveryId)
  {
  }

  lemma AssociatedMore(associations: seq<Association>, added: seq<Association>, id: string)
    ensures Associated(associations + added, id) <==> Associated(associations, id) || Associated(added, id)
  {
    var all := associations + added;
    if Associated(associations, id) {
      var a :| 0 <= a < |associations| && associations[a].deliveryId == id;
      assert all[a].deliveryId == id;
    }
    if Associated(added, id) {
      var a :| 0 <= a < |added| && added[a].deliveryId == id;
      assert all[|associations| + a].deliveryId == id;
    }
  }

  lemma AssociatedToPrefix(entryId: string, prefix: seq<Delivery>, id: string)
    ensures Associated(Associations(entryId, prefix), id) <==> IdUsed(prefix, id)
  {
    var added := Associations(entryId, prefix);
    if IdUsed(prefix, id) {
      var i :| 0 <= i < |prefix| && prefix[i].row.id == id;
      assert added[i].deliveryId == id;
    }
  }

  lemma UsedAfterMarking(ds: seq<Delivery>, owner: string, ids: seq<string>, id: string)
    ensures IdUsed(MarkAll(ds, owner, ids), id) <==> IdUsed(ds, id)
  {
    var marked := MarkAll(ds, owner, ids);
    if IdUsed(ds, id) {
      var i :| 0 <= i < |ds| && ds[i].row.id == id;
      assert marked[i].row.id == id;
    }
  }

  lemma AddedIsNew(t: Tables, owner: string, n: nat, c: nat, k: nat)
    requires AssociationsAreGood(t.deliveries, t.associations) && ConsumedPrefix(OwnRows(t.deliveries, owner), c)
    requires k < |PendingPrefix(t.deliveries, owner, n)|
    ensures !Associated(t.associations, PendingPrefix(t.deliveries, owner, n)[k].row.id)
  {
    hide Associated, PendingPrefix, ConsumedPrefix, OwnRows;
    var i := PrefixRow(t.deliveries, owner, n, c, k);
  }

  lemma PrefixIdsDiffer(ds: seq<Delivery>, owner: string, n: nat, c: nat, j: nat, k: nat)
    requires KeysAreGood(ds) && ConsumedPrefix(OwnRows(ds, owner), c) && j < k < |PendingPrefix(ds, owner, n)|
    ensures PendingPrefix(ds, owner, n)[j].row.id != PendingPrefix(ds, owner, n)[k].row.id
  {
    hide KeysAreGood;
    PendingIsRest(OwnRows(ds, owner), c);
    OwnIdsDiffer(ds, owner, c + j, c + k);
  }

  /** A row becomes consumed exactly when it stands in the drained prefix. */
  lemma MarkedExactly(ds: seq<Delivery>, owner: string, ids: seq<string>, c: nat, i: nat)
    requires KeysAreGood(ds) && ConsumedPrefix(OwnRows(ds, owner), c) && i < |ds|
    requires RowsMatchIds(PendingPrefix(ds, owner, |ids|), ids)
    ensures Mark(ds[i], owner, ids).consumed <==>
      ds[i].consumed || IdUsed(PendingPrefix(ds, owner, |ids|), ds[i].row.id)
  {
    hide PendingPrefix, ConsumedPrefix, OwnRows;
    var prefix := PendingPrefix(ds, owner, |ids|);
    if IdUsed(prefix, ds[i].row.id) {
      var k :| 0 <= k < |prefix| && prefix[k].row.id == ds[i].row.id;
      assert ids[k] == ds[i].row.id;
      var j := PrefixRow(ds, owner, |ids|, c, k);
      assert j == i;
    } else {
      forall k | 0 <= k < |ids| ensures ids[k] != ds[i].row.id {
        assert prefix[k].row.id == ids[k];
      }
    }
  }

  lemma MarkingKeepsKeys(ds: seq<Delivery>, owner: string, ids: seq<string>, size: seq<Record> -> nat)
    requires KeysAreGood(ds) && RowsAreGood(ds, size)
    ensures KeysAreGood(MarkAll(ds, owner, ids)) && RowsAreGood(MarkAll(ds, owner, ids), size)
  {
    hide ValidRecord, Mark, FitsOrIsBare;
    MarkedKeepsRows(ds, owner, ids);
  }

  lemma ConsumeKeepsGood(t: Tables, owner: string, ids: seq<string>, entryId: string, size: seq<Record> -> nat)
    requires Good(t, size)
    ensures Good(AfterConsume(t, owner, ids, entryId, size), size)
  {
    hide KeysAreGood, RowsAreGood, OwnerIsGood, AssociationsAreGood, Pending, OwnRows, Bytes, ConsumeOutcomeOf,
      PendingPrefix, Associations, Records;
    if ConsumeOutcomeOf(t, owner, ids, entryId, size) == Consumed {
      var u := AfterConsume(t, owner, ids, entryId, size);
      MarkingKeepsKeys(t.deliveries, owner, ids, size);
      MarkingShrinksPending(t.deliveries, owner, ids);
      ConsumeKeepsAssociations(t, owner, ids, entryId, size);
      forall other: string ensures OwnerIsGood(u, other) {
        ConsumeKeepsOwner(t, owner, ids, entryId, size, other);
      }
    }
  }

  // ----- every run -----

  /** One transaction. A projection and a repair carry the records that the writer produced for their sources. */
  datatype Transaction =
    | ProjectOne(candidate: Candidate, children: set<string>)
    | Repair(candidates: seq<Candidate>, children: set<string>, limit: int)
    | Consume(owner: string, ids: seq<string>, entryId: string)

  function PageLimit(limit: int): nat {
    if limit <= 0 || limit > PAGE_LIMIT then PAGE_LIMIT else limit
  }

  /** The tables after some candidates, and whether none of them failed. */
  function AfterRepair(
    size: seq<Record> -> nat, t: Tables, candidates: seq<Candidate>, children: set<string>): (Tables, bool)
  {
    if candidates == [] then (t, true)
    else
      var n := |candidates| - 1;
      var (before, ok) := AfterRepair(size, t, candidates[..n], children);
      var next := candidates[n];
      var bytes := size([next.record]);
      if !ok || ProjectOutcomeOf(before, next.source, next.record, bytes, children) == DuplicateId then (before, false)
      else (AfterProject(before, next.source, next.record, bytes, children), true)
  }

  ghost function Step(size: seq<Record> -> nat, t: Tables, x: Transaction): Tables {
    match x
    case ProjectOne(candidate, children) =>
      if !Written(candidate, size) then t
      else AfterProject(t, candidate.source, candidate.record, size([candidate.record]), children)
    case Repair(candidates, children, limit) =>
      if forall i | 0 <= i < |candidates| :: Written(candidates[i], size) then
        var (after, ok) := AfterRepair(size, t, Take(candidates, PageLimit(limit)), children);
        if ok then after else t
      else t
    case Consume(owner, ids, entryId) => AfterConsume(t, owner, ids, entryId, size)
  }

  ghost function Execute(size: seq<Record> -> nat, xs: seq<Transaction>): Tables {
    if xs == [] then Tables([], map[], [], [], map[]) else Step(size, Execute(size, xs[..|xs| - 1]), xs[|xs| - 1])
  }

  lemma {:induction false} RepairKeepsGood(
    size: seq<Record> -> nat, t: Tables, candidates: seq<Candidate>, children: set<string>)
    requires Good(t, size) && forall i | 0 <= i < |candidates| :: Written(candidates[i], size)
    ensures Good(AfterRepair(size, t, candidates, children).0, size)
  {
    hide Good, AfterProject, ProjectOutcomeOf, Written;
    if candidates != [] {
      var n := |candidates| - 1;
      RepairKeepsGood(size, t, candidates[..n], children);
      var next := candidates[n];
      ProjectKeepsGood(AfterRepair(size, t, candidates[..n], children).0, next, size, children);
    }
  }

  /**
   * Over every run of projections, repairs and drains, from empty tables: each owner and event has one delivery at
   * most; an owner's sequence numbers are 1..n; consumed deliveries are a prefix 1..c, each tied to exactly one
   * entry, and the owner's entries carry exactly these in sequence; pending rows and bytes stay within both quotas.
   */
  lemma {:induction false} OutboxIsGood(size: seq<Record> -> nat, xs: seq<Transaction>)
    ensures Good(Execute(size, xs), size)
  {
    hide Good, AfterProject, AfterRepair, AfterConsume, Written;
    if xs == [] {
      EmptyIsGood(size);
    } else {
      var n := |xs| - 1;
      OutboxIsGood(size, xs[..n]);
      var t := Execute(size, xs[..n]);
      match xs[n]
      case ProjectOne(candidate, children) =>
        if Written(candidate, size) {
          ProjectKeepsGood(t, candidate, size, children);
        }
      case Repair(candidates, children, limit) =>
        if forall i | 0 <= i < |candidates| :: Written(candidates[i], size) {
          RepairKeepsGood(size, t, Take(candidates, PageLimit(limit)), children);
        }
      case Consume(owner, ids, entryId) => ConsumeKeepsGood(t, owner, ids, entryId, size);
    }
  }

  lemma EmptyIsGood(size: seq<Record> -> nat)
    ensures Good(Tables([], map[], [], [], map[]), size)
  {
    forall owner: string ensures OwnerIsGood(Tables([], map[], [], [], map[]), owner) {
      assert DeliveredInOrder([], Replayed([], owner), 0);
    }
  }

  /** Sequence numbers follow insertion order, so a drain takes the pending rows with the lowest numbers. */
  lemma PrefixIsLowest(t: Tables, owner: string, n: nat, k: nat)
    requires OwnerIsGood(t, owner) && k < |OwnRows(t.deliveries, owner)| && !OwnRows(t.deliveries, owner)[k].consumed
    ensures var rows, prefix := OwnRows(t.deliveries, owner), PendingPrefix(t.deliveries, owner, n);
      rows[k] in prefix || (|prefix| == n && forall i | 0 <= i < n :: prefix[i].row.sequence < rows[k].row.sequence)
  {
    hide Pending, OwnRows, Bytes;
    var rows := OwnRows(t.deliveries, owner);
    var c: nat :| DeliveredInOrder(rows, Replayed(t.entries, owner), c);
    PendingIsRest(rows, c);
    var prefix := PendingPrefix(t.deliveries, owner, n);
    if k - c < |prefix| {
      assert prefix[k - c] == rows[k];
    } else {
      forall i | 0 <= i < n ensures prefix[i].row.sequence < rows[k].row.sequence {
        assert prefix[i] == rows[c + i];
      }
    }
  }

  lemma DrainOfOne(t: Tables, owner: string, head: Delivery, entryId: string, size: seq<Record> -> nat)
    requires PendingPrefix(t.deliveries, owner, 1) == [head] && !EntryUsed(t.entries, entryId)
    ensures ConsumeOutcomeOf(t, owner, [head.row.id], entryId, size) == Consumed <==>
      Readable(head) && size([head.record]) <= ENVELOPE_LIMIT
  {
    hide PendingPrefix, EntryUsed, Readable;
    var rows := PendingPrefix(t.deliveries, owner, 1);
    assert |[head.row.id]| == 1 && RowsMatchIds(rows, [head.row.id]);
    assert Records(rows) == [head.record];
    assert rows[0] == head;
  }

  lemma OwnRowIsStored(t: Tables, owner: string, k: nat, size: seq<Record> -> nat)
    requires RowsAreGood(t.deliveries, size) && k < |OwnRows(t.deliveries, owner)|
    ensures OwnRows(t.deliveries, owner)[k].row.owner == owner && IsStored(OwnRows(t.deliveries, owner)[k], size)
  {
    hide IsStored, OwnRows;
    OwnRowsFrom(t.deliveries, owner, k);
  }

  /**
   * The head of the queue can be drained alone exactly when its owner and event are named and its envelope keeps the
   * limit. The writer drops the texts of an envelope that does not, so only one without any text can get stuck.
   */
  lemma HeadCanBeDrained(size: seq<Record> -> nat, xs: seq<Transaction>, owner: string, entryId: string)
    requires Pending(OwnRows(Execute(size, xs).deliveries, owner)) != []
    requires !EntryUsed(Execute(size, xs).entries, entryId)
    ensures var t := Execute(size, xs);
      var head := Pending(OwnRows(t.deliveries, owner))[0];
      && (ConsumeOutcomeOf(t, owner, [head.row.id], entryId, size) == Consumed <==>
        owner != "" && head.row.eventId != "" && size([head.record]) <= ENVELOPE_LIMIT)
      && (size([head.record]) > ENVELOPE_LIMIT ==> head.record.summary.None? && head.record.error.None?)
  {
    OutboxIsGood(size, xs);
    var t := Execute(size, xs);
    hide Execute, RowsAreGood, KeysAreGood, AssociationsAreGood, ConsumeOutcomeOf, OwnRows, Pending, EntryUsed,
      ValidRecord;
    var rows := OwnRows(t.deliveries, owner);
    assert OwnerIsGood(t, owner);
    var c: nat :| DeliveredInOrder(rows, Replayed(t.entries, owner), c);
    PendingIsRest(rows, c);
    assert PendingPrefix(t.deliveries, owner, 1) == [rows[c]];
    OwnRowIsStored(t, owner, c, size);
    DrainOfOne(t, owner, rows[c], entryId, size);
  }
}
