/** The transactions that write the outbox tables step by step (internal/database/completion_repository.go). */
module CompletionRepositories {
  import opened Text
  import opened CompletionText
  import opened CompletionOutbox

  class CompletionRepository {
    const size: seq<Record> -> nat
    var deliveries: seq<Delivery>
    var nextSequence: map<string, nat>
    var associations: seq<Association>
    var entries: seq<DeliveryEntry>
    var diagnostics: map<string, nat>

    ghost function Value(): Tables
      reads this
    {
      Tables(deliveries, nextSequence, associations, entries, diagnostics)
    }

    constructor (size: seq<Record> -> nat)
      ensures this.size == size
      ensures Value() == Tables([], map[], [], [], map[])
    {
      this.size := size;
      deliveries, nextSequence, associations, entries, diagnostics := [], map[], [], [], map[];
    }

    method DiagnosticTx(owner: string)
      modifies this`diagnostics
      ensures diagnostics == Counted(old(diagnostics), owner)
    {
      if owner in diagnostics {
        diagnostics := diagnostics[owner := diagnostics[owner] + 1];
      } else {
        diagnostics := diagnostics[owner := 1];
      }
    }

    method CompletionWithinQuota(owner: string, bytes: nat) returns (within: bool)
      modifies this`diagnostics
      ensures within <==> WithinQuota(deliveries, owner, bytes)
      ensures diagnostics == if within then old(diagnostics) else Counted(old(diagnostics), owner)
    {
      var session := Pending(OwnRows(deliveries, owner));
      var all := Pending(deliveries);
      if |session| + 1 <= SESSION_ROWS && |all| + 1 <= GLOBAL_ROWS &&
         Bytes(session) + bytes <= SESSION_BYTES && Bytes(all) + bytes <= GLOBAL_BYTES {
        return true;
      }
      DiagnosticTx(owner);
      within := false;
    }

    /** Advances the owner's sequence and inserts the row, whose ID must be new. */
    method InsertCompletion(source: Source, record: Record, bytes: nat) returns (inserted: bool)
      modifies this`deliveries, this`nextSequence
      ensures inserted <==> !IdUsed(old(deliveries), record.deliveryId)
      ensures nextSequence ==
        old(nextSequence)[source.owner := NextOf(old(nextSequence), source.owner) + 1]
      ensures deliveries ==
        if inserted then
          old(deliveries) + [NewDelivery(source, record, bytes, NextOf(old(nextSequence), source.owner))]
        else old(deliveries)
    {
      if source.owner in nextSequence {
        nextSequence := nextSequence[source.owner := nextSequence[source.owner] + 1];
      } else {
        nextSequence := nextSequence[source.owner := 2];
      }
      var sequence := nextSequence[source.owner] - 1;
      if IdUsed(deliveries, record.deliveryId) {
        return false;
      }
      deliveries := deliveries + [NewDelivery(source, record, bytes, sequence)];
      inserted := true;
    }

    /** Projects one terminal event with the redactor of this call; `failed` aborts the enclosing transaction. */
    method ProjectTerminalSource(source: Source, id: string, redact: Redactor, children: set<string>)
      returns (projected: bool, failed: bool, ghost record: Record)
      modifies this
      ensures IsWritten(record, source, id, redact) && FitsOrIsBare(record, size)
      ensures var outcome := ProjectOutcomeOf(old(Value()), source, record, size([record]), children);
        && (projected <==> outcome == Projected) && (failed <==> outcome == DuplicateId)
      ensures !failed ==> Value() == AfterProject(old(Value()), source, record, size([record]), children)
    {
      hide IsWritten, FitsOrIsBare, RowOf;
      var written := WriteRecord(source, id, redact, size);
      record := written;
      WrittenId(written, source, id, redact);
      projected, failed := false, false;
      var mapped := EventState(source.taskKind, source.eventKind);
      if mapped != Some(source.state) {
        return;
      }
      if source.taskKind.AgentTask? && source.taskId in children {
        return;
      }
      if Exists(deliveries, source.owner, source.eventId) {
        return;
      }
      var bytes := size([written]);
      var within := CompletionWithinQuota(source.owner, bytes);
      if !within {
        return;
      }
      var inserted := InsertCompletion(source, written, bytes);
      projected, failed := inserted, !inserted;
    }

    /** Ties every row to the entry, then marks the rows; the count of marked rows must agree. */
    method SettleCompletionRows(owner: string, entryId: string, rows: seq<Delivery>, ids: seq<string>, ghost c: nat)
      returns (affected: nat)
      requires KeysAreGood(deliveries) && ConsumedPrefix(OwnRows(deliveries, owner), c)
      requires rows == PendingPrefix(deliveries, owner, |ids|) && RowsMatchIds(rows, ids)
      modifies this`associations, this`deliveries
      ensures associations == old(associations) + Associations(entryId, rows)
      ensures deliveries == MarkAll(old(deliveries), owner, ids)
      ensures affected == |rows|
    {
      hide KeysAreGood, ConsumedPrefix, OwnRows, PendingPrefix, Mark;
      for index := 0 to |rows|
        invariant associations == old(associations) + Associations(entryId, rows)[..index]
        invariant deliveries == old(deliveries)
      {
        associations := associations + [Association(entryId, rows[index].row.id)];
      }
      assert Associations(entryId, rows)[..|rows|] == Associations(entryId, rows);
      ghost var before := deliveries;
      affected := 0;
      var marked: seq<Delivery> := [];
      for index := 0 to |deliveries|
        invariant deliveries == before && |marked| == index
        invariant forall k | 0 <= k < index :: marked[k] == Mark(before[k], owner, ids)
        invariant affected == Affected(before, owner, ids, index)
      {
        if deliveries[index].row.owner == owner && !deliveries[index].consumed && deliveries[index].row.id in ids {
          affected := affected + 1;
        }
        marked := marked + [MarkRow(deliveries[index], owner, ids)];
      }
      deliveries := marked;
      assert deliveries == MarkAll(before, owner, ids);
      AffectedAll(before, owner, ids, c);
    }

    function MarkRow(d: Delivery, owner: string, ids: seq<string>): (r: Delivery)
      ensures r == Mark(d, owner, ids)
    {
      if d.row.owner == owner && !d.consumed && d.row.id in ids then d.(consumed := true) else d
    }

    /**
     * Appends one entry for the owner's oldest pending deliveries, which must be exactly the given ones. On tables that
     * the outbox has written, the final count of settled rows never disagrees.
     */
    method ConsumeDeliveries(owner: string, ids: seq<string>, entryId: string) returns (outcome: ConsumeOutcome)
      requires Good(Value(), size)
      modifies this
      ensures outcome == ConsumeOutcomeOf(old(Value()), owner, ids, entryId, size)
      ensures Value() == AfterConsume(old(Value()), owner, ids, entryId, size)
    {
      hide KeysAreGood, RowsAreGood, AssociationsAreGood, ConsumedPrefix, OwnRows, Pending, PendingPrefix, Readable,
        EntryUsed, Numbered, Bytes, MarkAll;
      if |ids| == 0 || |ids| > DRAIN_LIMIT {
        return BadDrainSize;
      }
      var rows := PendingPrefix(deliveries, owner, |ids|);
      if |rows| != |ids| {
        return NotOwned;
      }
      for index := 0 to |rows|
        invariant forall k | 0 <= k < index :: rows[k].row.id == ids[k]
      {
        if rows[index].row.id != ids[index] {
          return UnstablePrefix;
        }
      }
      var records := [];
      for index := 0 to |rows|
        invariant records == Records(rows)[..index]
        invariant forall k | 0 <= k < index :: Readable(rows[k])
      {
        if !Readable(rows[index]) {
          return CorruptEnvelope;
        }
        records := records + [rows[index].record];
      }
      assert records == Records(rows);
      if size(records) > ENVELOPE_LIMIT {
        return EnvelopeLimit;
      }
      if EntryUsed(entries, entryId) {
        return DuplicateEntry;
      }
      entries := entries + [DeliveryEntry(entryId, owner, records)];
      assert OwnerIsGood(old(Value()), owner);
      ghost var c: nat :| DeliveredInOrder(OwnRows(deliveries, owner), Replayed(old(entries), owner), c);
      var affected := SettleCompletionRows(owner, entryId, rows, ids, c);
      assert affected == |rows|;
      outcome := Consumed;
    }

    /** Projects the candidates in order; the first failure rolls everything back. */
    method RepairSources(sources: seq<Source>, ids: seq<string>, redactors: seq<Redactor>, children: set<string>)
      returns (repaired: nat, failed: bool, ghost candidates: seq<Candidate>)
      requires |ids| == |sources| == |redactors|
      modifies this
      ensures |candidates| <= |sources| && AreWritten(candidates, sources, ids, redactors, size)
      ensures var (after, ok) := AfterRepair(size, old(Value()), candidates, children);
        if failed then !ok && Value() == old(Value()) && repaired == 0
        else
          && ok && Value() == after && |candidates| == |sources|
          && repaired == |deliveries| - |old(deliveries)|
    {
      hide Written, IsWritten, FitsOrIsBare, AfterProject, ProjectOutcomeOf;
      var savedDeliveries, savedNext, savedDiagnostics := deliveries, nextSequence, diagnostics;
      var savedAssociations, savedEntries := associations, entries;
      repaired, failed, candidates := 0, false, [];
      for index := 0 to |sources|
        invariant !failed && |candidates| == index && AreWritten(candidates, sources, ids, redactors, size)
        invariant AfterRepair(size, old(Value()), candidates, children) == (Value(), true)
        invariant repaired == |deliveries| - |old(deliveries)|
      {
        ghost var before := Value();
        ghost var record;
        var projected, aborted;
        projected, aborted, record := ProjectTerminalSource(sources[index], ids[index], redactors[index], children);
        ghost var candidate := Candidate(sources[index], record, redactors[index]);
        WrittenForSource(candidate, ids[index], size);
        RepairNext(size, old(Value()), candidates, candidate, children);
        candidates := candidates + [candidate];
        if aborted {
          deliveries, nextSequence, diagnostics := savedDeliveries, savedNext, savedDiagnostics;
          associations, entries := savedAssociations, savedEntries;
          return 0, true, candidates;
        }
        GrowsWhenProjected(before, sources[index], record, size([record]), children);
        if projected {
          repaired := repaired + 1;
        }
      }
    }
  }

  /** One record for each of the first sources, written with its own ID and redactor. */
  ghost predicate AreWritten(
    candidates: seq<Candidate>, sources: seq<Source>, ids: seq<string>, redactors: seq<Redactor>,
    size: seq<Record> -> nat)
  {
    && |candidates| <= |sources| == |ids| == |redactors|
    && forall i | 0 <= i < |candidates| :: IsWrittenFor(candidates[i], sources[i], ids[i], redactors[i], size)
  }

  ghost predicate IsWrittenFor(
    candidate: Candidate, source: Source, id: string, redact: Redactor, size: seq<Record> -> nat)
  {
    && candidate.source == source && candidate.record.deliveryId == id && candidate.redact == redact
    && Written(candidate, size)
  }

  lemma WrittenForSource(candidate: Candidate, id: string, size: seq<Record> -> nat)
    requires IsWritten(candidate.record, candidate.source, id, candidate.redact) && FitsOrIsBare(candidate.record, size)
    ensures IsWrittenFor(candidate, candidate.source, id, candidate.redact, size)
  {
    hide FitsOrIsBare;
    WrittenId(candidate.record, candidate.source, id, candidate.redact);
  }

  lemma WrittenId(record: Record, source: Source, id: string, redact: Redactor)
    requires IsWritten(record, source, id, redact)
    ensures record.deliveryId == id
  {
  }

  lemma RepairNext(
    size: seq<Record> -> nat, t: Tables, candidates: seq<Candidate>, next: Candidate, children: set<string>)
    requires AfterRepair(size, t, candidates, children).1
    ensures var before := AfterRepair(size, t, candidates, children).0;
      var bytes := size([next.record]);
      AfterRepair(size, t, candidates + [next], children) ==
        if ProjectOutcomeOf(before, next.source, next.record, bytes, children) == DuplicateId then (before, false)
        else (AfterProject(before, next.source, next.record, bytes, children), true)
  {
    hide AfterProject, ProjectOutcomeOf;
    assert (candidates + [next])[..|candidates|] == candidates;
  }

  lemma GrowsWhenProjected(t: Tables, source: Source, record: Record, bytes: nat, children: set<string>)
    ensures |AfterProject(t, source, record, bytes, children).deliveries| ==
      |t.deliveries| + (if ProjectOutcomeOf(t, source, record, bytes, children) == Projected then 1 else 0)
  {
    hide ProjectOutcomeOf;
  }

  /** Rows among the first n that the update touches. */
  function Affected(ds: seq<Delivery>, owner: string, ids: seq<string>, n: nat): nat
    requires n <= |ds|
  {
    if n == 0 then 0
    else
      Affected(ds, owner, ids, n - 1)
      + (if ds[n - 1].row.owner == owner && !ds[n - 1].consumed && ds[n - 1].row.id in ids then 1 else 0)
  }

  lemma {:induction false} AffectedLeavePending(ds: seq<Delivery>, owner: string, ids: seq<string>, n: nat)
    requires n <= |ds|
    ensures |Pending(OwnRows(ds[..n], owner))| ==
      |Pending(OwnRows(MarkAll(ds[..n], owner, ids), owner))| + Affected(ds, owner, ids, n)
  {
    if n > 0 {
      hide Pending, OwnRows, MarkAll, Mark;
      var m := n - 1;
      AffectedLeavePending(ds, owner, ids, m);
      OwnRowsNext(ds[..n], owner, m);
      OwnRowsNext(MarkAll(ds[..n], owner, ids), owner, m);
      assert ds[..n][..m] == ds[..m] && MarkAll(ds[..n], owner, ids)[..m] == MarkAll(ds[..m], owner, ids);
      MarkedRow(ds[m], owner, ids);
      PendingOfMore(OwnRows(ds[..m], owner), ds[m]);
      PendingOfMore(OwnRows(MarkAll(ds[..m], owner, ids), owner), Mark(ds[m], owner, ids));
    }
  }

  lemma MarkedRow(d: Delivery, owner: string, ids: seq<string>)
    ensures Mark(d, owner, ids).row == d.row
    ensures Mark(d, owner, ids).consumed <==> d.consumed || (d.row.owner == owner && d.row.id in ids)
  {
  }

  lemma OwnRowsNext(ds: seq<Delivery>, owner: string, m: nat)
    requires |ds| == m + 1
    ensures OwnRows(ds, owner) ==
      if ds[m].row.owner == owner then OwnRows(ds[..m], owner) + [ds[m]] else OwnRows(ds[..m], owner)
  {
    assert OwnRows(ds[..m], owner) + [] == OwnRows(ds[..m], owner);
  }

  lemma PendingOfMore(ds: seq<Delivery>, d: Delivery)
    ensures |Pending(ds + [d])| == |Pending(ds)| + (if d.consumed then 0 else 1)
  {
    assert (ds + [d])[..|ds|] == ds;
  }

  /** The update touches as many rows as were to be settled. */
  lemma AffectedAll(ds: seq<Delivery>, owner: string, ids: seq<string>, c: nat)
    requires KeysAreGood(ds) && ConsumedPrefix(OwnRows(ds, owner), c)
    requires RowsMatchIds(PendingPrefix(ds, owner, |ids|), ids)
    ensures Affected(ds, owner, ids, |ds|) == |ids|
  {
    hide KeysAreGood, ConsumedPrefix, PendingPrefix, OwnRows, Pending, Mark, Affected;
    assert ds[..|ds|] == ds;
    AffectedLeavePending(ds, owner, ids, |ds|);
    OwnRowsOfMarked(ds, owner, ids, owner);
    MarkedPrefix(ds, owner, ids, c);
    PendingIsRest(OwnRows(ds, owner), c);
    PendingIsRest(MarkAll(OwnRows(ds, owner), owner, ids), c + |ids|);
  }
}
