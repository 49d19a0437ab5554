/** The text of a completion delivery and the record that carries it (internal/database/completion_repository.go). */
module CompletionText {
  import opened Text
  import opened Utf8

  const STRING_LIMIT := 8192
  const ENVELOPE_LIMIT := 65536

  // ----- where an encoded text may be cut -----

  /** Some encoded prefix ends here. */
  ghost predicate IsBoundary(text: string, at: nat) {
    exists k: nat :: k < |text| && |Encode(text[..k])| == at
  }

  lemma BoundaryOfPrefix(text: string, at: nat)
    requires text != [] && at < |Encode(text[..|text| - 1])|
    ensures IsBoundary(text, at) <==> IsBoundary(text[..|text| - 1], at)
  {
    hide Encode;
    var shorter := text[..|text| - 1];
    forall k: nat | k < |shorter| ensures text[..k] == shorter[..k] {
    }
    if IsBoundary(text, at) {
      var k: nat :| k < |text| && |Encode(text[..k])| == at;
      assert k < |shorter| && shorter[..k] == text[..k];
    }
    if IsBoundary(shorter, at) {
      var k: nat :| k < |shorter| && |Encode(shorter[..k])| == at;
      assert text[..k] == shorter[..k];
    }
  }

  lemma BoundaryInLast(text: string, at: nat)
    requires text != [] && at >= |Encode(text[..|text| - 1])|
    ensures IsBoundary(text, at) <==> at == |Encode(text[..|text| - 1])|
  {
    var shorter := text[..|text| - 1];
    forall k: nat | k < |text| ensures |Encode(text[..k])| <= |Encode(shorter)| {
      EncodePrefix(shorter, k);
      assert shorter[..k] == text[..k];
    }
  }

  /** A byte position is a rune start exactly when it is the end of an encoded prefix. */
  lemma {:induction false} RuneStartsAreBoundaries(text: string, at: nat)
    requires at < |Encode(text)|
    ensures RuneStart(Encode(text)[at]) <==> IsBoundary(text, at)
    decreases |text|
  {
    hide IsBoundary, EncodeChar, RuneStart;
    var shorter := text[..|text| - 1];
    var size := |Encode(shorter)|;
    CharShape(text[|text| - 1]);
    if at < size {
      RuneStartsAreBoundaries(shorter, at);
      BoundaryOfPrefix(text, at);
    } else {
      BoundaryInLast(text, at);
      assert Encode(text)[at] == EncodeChar(text[|text| - 1])[at - size];
    }
  }

  /** The longest prefix of the text whose encoding fits. */
  ghost predicate IsLongestPrefix(text: string, k: nat, limit: nat) {
    && k <= |text| && |Encode(text[..k])| <= limit
    && (k < |text| ==> |Encode(text[..k + 1])| > limit)
  }

  /** Longer prefixes have longer encodings. */
  lemma EncodeGrows(text: string, j: nat, k: nat)
    requires j < k <= |text|
    ensures |Encode(text[..j])| < |Encode(text[..k])|
  {
    EncodePrefix(text[..k], j + 1);
    assert text[..k][..j + 1] == text[..j + 1];
    EncodeNext(text, j);
  }

  /** Exactly one prefix is the longest. */
  lemma LongestPrefixIsUnique(text: string, j: nat, k: nat, limit: nat)
    requires IsLongestPrefix(text, j, limit) && IsLongestPrefix(text, k, limit)
    ensures j == k
  {
    if j < k {
      if j + 1 < k {
        EncodeGrows(text, j + 1, k);
      }
    } else if k < j {
      if k + 1 < j {
        EncodeGrows(text, k + 1, j);
      }
    }
  }

  /** Steps back from the limit to a rune start: never further than to the end of the last rune that fits. */
  method TruncateBytes(ghost text: string, bytes: seq<Byte>, limit: nat) returns (end: nat)
    requires bytes == Encode(text) && |bytes| > limit
    ensures end <= |bytes|
    ensures exists k: nat :: IsLongestPrefix(text, k, limit) && bytes[..end] == Encode(text[..k])
    ensures forall k: nat | IsLongestPrefix(text, k, limit) :: bytes[..end] == Encode(text[..k])
  {
    end := limit;
    while end > 0 && !RuneStart(bytes[end])
      invariant end <= limit
      invariant forall i | end < i <= limit :: !RuneStart(bytes[i])
    {
      end := end - 1;
    }
    ghost var k: nat := 0;
    if end > 0 {
      RuneStartsAreBoundaries(text, end);
      k :| k < |text| && |Encode(text[..k])| == end;
    }
    assert |Encode(text[..k])| == end && k < |text| by {
      assert text[..0] == [];
      assert text == [] ==> bytes == [];
    }
    EncodePrefix(text, k);
    NothingLongerFits(text, k, limit);
    forall j: nat | IsLongestPrefix(text, j, limit) ensures j == k {
      LongestPrefixIsUnique(text, j, k, limit);
    }
  }

  lemma NothingLongerFits(text: string, k: nat, limit: nat)
    requires k < |text| && |Encode(text)| > limit && |Encode(text[..k])| <= limit
    requires forall i | |Encode(text[..k])| < i <= limit :: !RuneStart(Encode(text)[i])
    ensures IsLongestPrefix(text, k, limit)
  {
    EncodeNext(text, k);
    assert text[..|text|] == text;
    if k + 1 < |text| && |Encode(text[..k + 1])| <= limit {
      RuneStartsAreBoundaries(text, |Encode(text[..k + 1])|);
    }
  }

  // ----- the delivered text -----

  predicate IsSafe(c: char) {
    c == '\n' || c == '\t' || c >= ' '
  }

  function SafeText(text: string): (r: string)
    ensures |r| == |text| && forall i | 0 <= i < |r| :: IsSafe(r[i])
    ensures forall i | 0 <= i < |r| :: IsSafe(text[i]) ==> r[i] == text[i]
  {
    seq(|text|, i requires 0 <= i < |text| => if IsSafe(text[i]) then text[i] else REPLACEMENT)
  }

  /** safeCompletionText; what it returns is always valid, so that its last check never fails. */
  function CleanText(raw: seq<Byte>): (r: string)
    ensures forall i | 0 <= i < |r| :: IsSafe(r[i])
  {
    SafeText(Repaired(raw, false))
  }

  lemma CleanKeepsSomething(raw: seq<Byte>)
    ensures CleanText(raw) == "" <==> raw == []
  {
    RepairKeepsSomething(raw, false);
  }

  /** A valid text of safe characters is delivered as it is. */
  lemma CleanTextIsKept(text: string)
    requires forall i | 0 <= i < |text| :: IsSafe(text[i])
    ensures CleanText(Encode(text)) == text
  {
    ValidIsKept(text, false);
  }

  datatype TaskKind = AgentTask | WorkflowTask

  datatype TaskState = Queued | Running | Canceling | Succeeded | TaskFailed | Canceled | Interrupted

  /** A terminal task event and its task, as the projection reads them. Its texts are any bytes. */
  datatype Source = Source(
    eventId: string,
    taskId: string,
    eventKind: string,
    taskKind: TaskKind,
    owner: string,
    state: TaskState,
    result: seq<Byte>,
    errorCode: string,
    errorMessage: seq<Byte>
  )

  datatype DeliveredText = DeliveredText(text: string, truncated: bool, originalBytes: nat)

  datatype DeliveredError = DeliveredError(code: string, message: DeliveredText)

  datatype Record = Record(
    deliveryId: string,
    sourceKind: string,
    sourceId: string,
    terminalState: TaskState,
    outcomeRef: string,
    summary: Option<DeliveredText>,
    error: Option<DeliveredError>
  )

  /** A redactor replaces a text by any bytes, or fails. */
  type Redactor = seq<Byte> -> Option<seq<Byte>>

  /** The text is the longest prefix within the limit, and its metadata says what was cut off. */
  ghost predicate IsDelivered(d: DeliveredText, full: string) {
    && d.originalBytes == |Encode(full)|
    && (d.truncated <==> |Encode(full)| > STRING_LIMIT)
    && exists k: nat :: IsLongestPrefix(full, k, STRING_LIMIT) && d.text == full[..k]
  }

  function RawText(source: Source): seq<Byte> {
    if source.state == Succeeded then source.result else source.errorMessage
  }

  method DeliveryText(source: Source, redact: Redactor) returns (body: Option<DeliveredText>)
    ensures body.None? <==> redact(RawText(source)).None?
    ensures body.Some? ==> IsDelivered(body.value, CleanText(redact(RawText(source)).value))
  {
    var redacted := redact(RawText(source));
    if redacted.None? {
      return None;
    }
    var text := CleanText(redacted.value);
    var bytes := Encode(text);
    if |bytes| <= STRING_LIMIT {
      assert text[..|text|] == text;
      assert IsLongestPrefix(text, |text|, STRING_LIMIT);
      return Some(DeliveredText(text, false, |bytes|));
    }
    var end := TruncateBytes(text, bytes, STRING_LIMIT);
    ghost var k: nat :| IsLongestPrefix(text, k, STRING_LIMIT) && bytes[..end] == Encode(text[..k]);
    var kept := DecodePrefix(text, bytes, end, k);
    body := Some(DeliveredText(kept, true, |bytes|));
  }

  /** The text behind the first bytes: Go slices the bytes of the string themselves. */
  method DecodePrefix(text: string, bytes: seq<Byte>, end: nat, ghost k: nat) returns (kept: string)
    requires bytes == Encode(text) && k <= |text| && end == |Encode(text[..k])|
    ensures kept == text[..k]
  {
    var size, n := 0, 0;
    while size < end
      invariant n <= k && size == |Encode(text[..n])|
      decreases k - n
    {
      if n == k {
        assert false;
      }
      EncodeNext(text, n);
      size := size + |EncodeChar(text[n])|;
      n := n + 1;
    }
    if n < k {
      EncodeGrows(text, n, k);
    }
    kept := text[..n];
  }

  // ----- the record -----

  function EventState(kind: TaskKind, eventKind: string): Option<TaskState> {
    var prefix := if kind.AgentTask? then "task_" else "workflow_";
    if eventKind == prefix + "succeeded" then Some(Succeeded)
    else if eventKind == prefix + "failed" then Some(TaskFailed)
    else if eventKind == prefix + "canceled" then Some(Canceled)
    else if eventKind == prefix + "interrupted" then Some(Interrupted)
    else None
  }

  predicate IsTerminal(state: TaskState) {
    state in {Succeeded, TaskFailed, Canceled, Interrupted}
  }

  function SourceKind(kind: TaskKind): string {
    if kind.AgentTask? then "agent_task" else "workflow"
  }

  function BareRecord(source: Source, id: string): Record {
    Record(id, SourceKind(source.taskKind), source.taskId, source.state, "task/" + source.taskId, None, None)
  }

  method SetCompletionOutcome(record: Record, source: Source, body: Option<DeliveredText>) returns (r: Record)
    ensures r == record.(summary := r.summary, error := r.error)
    ensures source.state == Succeeded ==>
      r.error == record.error
      && r.summary == if body.Some? && body.value.text != "" then body else record.summary
    ensures source.state != Succeeded ==>
      && r.summary == record.summary
      && r.error ==
        if source.errorCode == "" && (body.None? || body.value.text == "") then record.error
        else Some(DeliveredError(source.errorCode, if body.Some? then body.value else DeliveredText("", false, 0)))
  {
    if source.state == Succeeded {
      if body.Some? && body.value.text != "" {
        return record.(summary := body);
      }
      return record;
    }
    if source.errorCode == "" && (body.None? || body.value.text == "") {
      return record;
    }
    var error := DeliveredError(source.errorCode, DeliveredText("", false, 0));
    if body.Some? {
      error := error.(message := body.value);
    }
    r := record.(error := Some(error));
  }

  /** The redactor left something of this text. */
  predicate Remains(redact: Redactor, raw: seq<Byte>) {
    redact(raw).Some? && redact(raw).value != []
  }

  /** The outcome's text or error, before the size of the envelope is considered. */
  ghost predicate IsFullRecord(full: Record, source: Source, id: string, redact: Redactor) {
    && full == BareRecord(source, id).(summary := full.summary, error := full.error)
    && (full.summary.Some? <==> source.state == Succeeded && Remains(redact, source.result))
    && (full.summary.Some? ==> IsDelivered(full.summary.value, CleanText(redact(source.result).value)))
    && (full.error.Some? <==>
      source.state != Succeeded && (source.errorCode != "" || Remains(redact, source.errorMessage)))
    && (full.error.Some? ==>
      && full.error.value.code == source.errorCode
      && if redact(source.errorMessage).Some? then
           IsDelivered(full.error.value.message, CleanText(redact(source.errorMessage).value))
         else full.error.value.message == DeliveredText("", false, 0))
  }

  /** A visible text is never cut down to nothing. */
  lemma DeliveredSomething(d: DeliveredText, full: string)
    requires IsDelivered(d, full)
    ensures d.text == "" <==> full == ""
  {
    if full != "" {
      EncodeNext(full, 0);
      assert full[..0] == [];
    }
  }

  /** The record that the writer stores: with the outcome's text, or without it when its envelope would be too large. */
  method CompletionEnvelope(source: Source, id: string, redact: Redactor, size: seq<Record> -> nat)
    returns (record: Record)
    ensures exists full ::
      && IsFullRecord(full, source, id, redact)
      && record == if size([full]) <= ENVELOPE_LIMIT then full else BareRecord(source, id)
  {
    hide IsDelivered, CleanText, SourceKind;
    record := BareRecord(source, id);
    var body := DeliveryText(source, redact);
    record := SetCompletionOutcome(record, source, body);
    if body.Some? {
      DeliveredSomething(body.value, CleanText(redact(RawText(source)).value));
      CleanKeepsSomething(redact(RawText(source)).value);
    }
    assert IsFullRecord(record, source, id, redact);
    if size([record]) > ENVELOPE_LIMIT {
      record := record.(summary := None, error := None);
    }
  }

  // ----- the reader -----

  /** The columns of a delivery that the reader compares with its envelope. */
  datatype Row = Row(
    id: string, eventId: string, taskId: string, owner: string, sequence: int, sourceKind: string,
    terminalState: TaskState, outcomeRef: string)

  predicate RecordMatchesRow(record: Record, row: Row) {
    && record.deliveryId == row.id && record.sourceId == row.taskId
    && record.sourceKind == row.sourceKind && record.terminalState == row.terminalState
    && record.outcomeRef == row.outcomeRef
    && row.owner != "" && row.eventId != "" && row.sequence > 0
    && record.outcomeRef == "task/" + record.sourceId
  }

  predicate ValidOutcome(record: Record) {
    && IsTerminal(record.terminalState)
    && !(record.summary.Some? && record.error.Some?)
    && (record.terminalState == Succeeded ==> record.error.None?)
    && (record.terminalState != Succeeded ==> record.summary.None?)
  }

  predicate ValidText(d: DeliveredText) {
    && |Encode(d.text)| <= STRING_LIMIT && d.originalBytes >= |Encode(d.text)|
    && (d.truncated <==> d.originalBytes > |Encode(d.text)|)
    && forall i | 0 <= i < |d.text| :: IsSafe(d.text[i])
  }

  predicate ValidRecord(record: Record, row: Row) {
    && RecordMatchesRow(record, row)
    && record.sourceKind in {"agent_task", "workflow"}
    && ValidOutcome(record)
    && (record.summary.Some? ==> ValidText(record.summary.value))
    && (record.error.Some? ==> ValidText(record.error.value.message))
  }

  /** The row that the writer inserts for a source. */
  function RowOf(source: Source, record: Record, sequence: int): Row {
    Row(record.deliveryId, source.eventId, source.taskId, source.owner, sequence, record.sourceKind, source.state,
      record.outcomeRef)
  }

  /** A text cut to the longest prefix within the limit passes the reader's checks. */
  lemma DeliveredIsValid(d: DeliveredText, raw: seq<Byte>)
    requires IsDelivered(d, CleanText(raw))
    ensures ValidText(d)
  {
    hide SafeText, Repaired;
    var full := CleanText(raw);
    var k: nat :| IsLongestPrefix(full, k, STRING_LIMIT) && d.text == full[..k];
    EncodePrefix(full, k);
    assert full[..|full|] == full;
    if k < |full| {
      EncodeGrows(full, k, |full|);
      if k + 1 < |full| {
        EncodeGrows(full, k + 1, |full|);
      }
    }
  }

  /** What the writer stores for a terminal source, whatever the redactor does and however large envelopes become. */
  ghost predicate IsWritten(record: Record, source: Source, id: string, redact: Redactor) {
    && record == BareRecord(source, id).(summary := record.summary, error := record.error)
    && (record.summary.Some? ==>
      && source.state == Succeeded
      && redact(source.result).Some? && IsDelivered(record.summary.value, CleanText(redact(source.result).value)))
    && (record.error.Some? ==>
      && source.state != Succeeded
      && (record.error.value.message == DeliveredText("", false, 0)
        || (redact(source.errorMessage).Some?
          && IsDelivered(record.error.value.message, CleanText(redact(source.errorMessage).value)))))
  }

  /** Only a record without texts may be stored in an envelope that exceeds the limit. */
  predicate FitsOrIsBare(record: Record, size: seq<Record> -> nat) {
    size([record]) <= ENVELOPE_LIMIT || (record.summary.None? && record.error.None?)
  }

  method WriteRecord(source: Source, id: string, redact: Redactor, size: seq<Record> -> nat) returns (record: Record)
    ensures IsWritten(record, source, id, redact)
    ensures FitsOrIsBare(record, size)
  {
    hide IsDelivered, CleanText, SourceKind;
    record := CompletionEnvelope(source, id, redact, size);
  }

  /**
   * The reader accepts everything the writer stores: for every terminal source and redactor, the stored record passes
   * exactly when the owner and the event are named and the row has its positive sequence number.
   */
  lemma ReaderAcceptsWriter(record: Record, source: Source, id: string, redact: Redactor, sequence: int)
    requires EventState(source.taskKind, source.eventKind) == Some(source.state)
    requires IsWritten(record, source, id, redact)
    ensures ValidRecord(record, RowOf(source, record, sequence)) <==>
      source.owner != "" && source.eventId != "" && sequence > 0
  {
    hide IsDelivered, CleanText, ValidText;
    if record.summary.Some? {
      DeliveredIsValid(record.summary.value, redact(source.result).value);
    }
    if record.error.Some? {
      EmptyTextIsValid();
      if record.error.value.message != DeliveredText("", false, 0) {
        DeliveredIsValid(record.error.value.message, redact(source.errorMessage).value);
      }
    }
  }

  lemma EmptyTextIsValid()
    ensures ValidText(DeliveredText("", false, 0))
  {
  }
}
