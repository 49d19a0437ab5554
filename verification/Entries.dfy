/** Session entries and the messages a model sees (internal/database/entity.go, internal/model/messages.go). */
module Entries {
  import opened Text
  import opened Integers

  datatype Role =
    | RoleNone
    | RoleUser
    | RoleAssistant
    | RoleToolResult
    | RoleThinking
    | RoleCustom
    | RoleBashExecution
    | RoleBranchSummary
    | RoleCompactionSummary

  function RoleName(role: Role): string {
    match role
    case RoleNone => ""
    case RoleUser => "user"
    case RoleAssistant => "assistant"
    case RoleToolResult => "toolResult"
    case RoleThinking => "thinking"
    case RoleCustom => "custom"
    case RoleBashExecution => "bashExecution"
    case RoleBranchSummary => "branchSummary"
    case RoleCompactionSummary => "compactionSummary"
  }

  datatype Part =
    | TextPart(text: string)
    | ImagePart(dataBytes: nat, width: int, height: int)

  datatype Message = Message(
    timestamp: int,
    role: Role,
    content: string,
    provider: string,
    modelName: string,
    parts: seq<Part>
  )

  datatype EntryType =
    | MessageEntry
    | CustomMessageEntry
    | CustomEntry
    | BranchSummaryEntry
    | CompactionEntry
    | LabelEntry
    | ModelChangeEntry
    | SessionInfoEntry
    | ThinkingLevelEntry

  /**
   * `usage` is the decoded provider usage of an assistant entry, when it has any; `readable` says whether the entry's
   * data can be decoded.
   */
  datatype Entry = Entry(
    id: string,
    entryType: EntryType,
    createdAt: int,
    message: Message,
    summary: string,
    firstKeptId: string,
    thinkingLevel: string,
    usage: Option<nat>,
    modelFacing: bool,
    readable: bool
  )

  predicate IsFacingRole(role: Role) {
    role in {RoleUser, RoleAssistant, RoleBranchSummary, RoleCompactionSummary, RoleCustom, RoleBashExecution}
  }

  predicate HasImageData(m: Message) {
    exists i | 0 <= i < |m.parts| :: m.parts[i].ImagePart? && m.parts[i].dataBytes > 0
  }

  predicate IsFacingMessage(m: Message) {
    IsFacingRole(m.role) && (TrimSpace(m.content) != "" || HasImageData(m))
  }

  const COMPACTION_PREFIX :=
    "The conversation history before this point was compacted into the following summary:\n\n<summary>\n"
  const COMPACTION_SUFFIX := "\n</summary>"
  const BRANCH_PREFIX := "The following is a summary of a branch that this conversation came back from:\n\n<summary>\n"
  const BRANCH_SUFFIX := "</summary>"

  /** Summaries are replayed to the model as user messages; everything else is replayed as it is. */
  function FacingMessage(m: Message): Message {
    match m.role
    case RoleCompactionSummary =>
      m.(role := RoleUser, content := COMPACTION_PREFIX + m.content + COMPACTION_SUFFIX)
    case RoleBranchSummary =>
      m.(role := RoleUser, content := BRANCH_PREFIX + m.content + BRANCH_SUFFIX)
    case _ => m
  }

  /** What one message contributes. */
  function Facing(m: Message): seq<Message> {
    if IsFacingMessage(m) then [FacingMessage(m)] else []
  }

  /** internal/model/message_filter.go: keep the facing messages and convert them. */
  function FacingMessages(ms: seq<Message>): seq<Message> {
    if ms == [] then []
    else Facing(ms[0]) + FacingMessages(ms[1..])
  }

  lemma {:induction false} FacingMessagesConcat(a: seq<Message>, b: seq<Message>)
    ensures FacingMessages(a + b) == FacingMessages(a) + FacingMessages(b)
  {
    hide Facing;
    if a == [] {
      assert a + b == b;
    } else {
      assert (a + b)[1..] == a[1..] + b && (a + b)[0] == a[0];
      FacingMessagesConcat(a[1..], b);
    }
  }

  lemma FacingSingle(m: Message)
    ensures FacingMessages([m]) == if IsFacingMessage(m) then [FacingMessage(m)] else []
  {
    assert [m][1..] == [];
  }

  function CandidateMessage(e: Entry): Message {
    match e.entryType
    case BranchSummaryEntry => e.message.(role := RoleBranchSummary, content := e.summary)
    case CompactionEntry => e.message.(role := RoleCompactionSummary, content := e.summary)
    case _ => e.message
  }

  function MessageForContext(e: Entry): Option<Message> {
    if e.modelFacing && IsFacingMessage(CandidateMessage(e)) then Some(CandidateMessage(e)) else None
  }

  function MessageForSummary(e: Entry): Option<Message> {
    if e.entryType == CompactionEntry then None else MessageForContext(e)
  }

  /** The entry reaches the model in some form. */
  predicate InContext(e: Entry) {
    MessageForContext(e).Some?
  }

  /** The entry is history that a compaction may summarise or keep. */
  predicate IsHistory(e: Entry) {
    MessageForSummary(e).Some?
  }

  /** The history entries of a branch, in order. */
  function History(entries: seq<Entry>): (r: seq<Entry>)
    ensures forall i | 0 <= i < |r| :: IsHistory(r[i])
  {
    if entries == [] then []
    else (if IsHistory(entries[0]) then [entries[0]] else []) + History(entries[1..])
  }

  lemma {:induction false} HistoryConcat(a: seq<Entry>, b: seq<Entry>)
    ensures History(a + b) == History(a) + History(b)
  {
    hide IsHistory;
    if a == [] {
      assert a + b == b;
    } else {
      assert (a + b)[1..] == a[1..] + b;
      HistoryConcat(a[1..], b);
    }
  }

  lemma {:induction false} HistoryMembers(entries: seq<Entry>, e: Entry)
    ensures e in History(entries) <==> e in entries && IsHistory(e)
  {
    if entries != [] {
      HistoryMembers(entries[1..], e);
      assert entries == [entries[0]] + entries[1..];
    }
  }

  lemma HistorySplit(entries: seq<Entry>, lo: nat, mid: nat, hi: nat)
    requires lo <= mid <= hi <= |entries|
    ensures History(entries[lo..hi]) == History(entries[lo..mid]) + History(entries[mid..hi])
  {
    assert entries[lo..hi] == entries[lo..mid] + entries[mid..hi];
    HistoryConcat(entries[lo..mid], entries[mid..hi]);
  }

  lemma HistorySingle(e: Entry)
    ensures History([e]) == if IsHistory(e) then [e] else []
  {
    assert [e][1..] == [];
  }

  lemma HistoryAppend(entries: seq<Entry>, lo: nat, hi: nat)
    requires lo <= hi < |entries|
    ensures History(entries[lo..hi + 1]) ==
      History(entries[lo..hi]) + (if IsHistory(entries[hi]) then [entries[hi]] else [])
  {
    HistorySplit(entries, lo, hi, hi + 1);
    HistorySingle(entries[hi]);
    assert entries[hi..hi + 1] == [entries[hi]];
  }

  function Ids(entries: seq<Entry>): (r: seq<string>)
    ensures |r| == |entries|
    ensures forall i | 0 <= i < |entries| :: r[i] == entries[i].id
  {
    seq(|entries|, i requires 0 <= i < |entries| => entries[i].id)
  }

  /** The message of a history entry, as the model sees it. */
  function HistoryMessage(e: Entry): Message
    requires IsHistory(e)
  {
    FacingMessage(CandidateMessage(e))
  }

  /** The messages of history entries, as the model sees them. */
  function HistoryMessages(entries: seq<Entry>): (r: seq<Message>)
    requires forall i | 0 <= i < |entries| :: IsHistory(entries[i])
    ensures |r| == |entries|
    ensures forall i | 0 <= i < |entries| :: r[i] == HistoryMessage(entries[i])
  {
    seq(|entries|, i requires 0 <= i < |entries| => HistoryMessage(entries[i]))
  }

  lemma HistoryMessagesConcat(a: seq<Entry>, b: seq<Entry>)
    requires forall i | 0 <= i < |a| :: IsHistory(a[i])
    requires forall i | 0 <= i < |b| :: IsHistory(b[i])
    ensures forall i | 0 <= i < |a + b| :: IsHistory((a + b)[i])
    ensures HistoryMessages(a + b) == HistoryMessages(a) + HistoryMessages(b)
  {
    hide IsHistory;
  }

  predicate DistinctIds(entries: seq<Entry>) {
    forall i, j | 0 <= i < j < |entries| :: entries[i].id != entries[j].id
  }

  /** Index of the first entry with this ID, as a linear scan finds it. */
  function IndexById(entries: seq<Entry>, id: string): (r: Option<nat>)
    ensures r.Some? ==> r.value < |entries| && entries[r.value].id == id
    ensures r.Some? ==> forall i | 0 <= i < r.value :: entries[i].id != id
    ensures r.None? ==> forall i | 0 <= i < |entries| :: entries[i].id != id
  {
    if entries == [] then None
    else if entries[0].id == id then Some(0)
    else match IndexById(entries[1..], id)
      case None => None
      case Some(i) => Some(i + 1)
  }

  lemma IndexByIdDistinct(entries: seq<Entry>, k: nat)
    requires k < |entries| && DistinctIds(entries)
    ensures IndexById(entries, entries[k].id) == Some(k)
  {
  }

  const IMAGE_TILE_PIXELS := 512
  const IMAGE_TILE_TOKENS := 200
  const MINIMUM_IMAGE_TOKENS := 256
  const MAXIMUM_IMAGE_TOKENS := 16000

  function Tiles(pixels: nat): (r: nat)
    requires pixels > 0
    ensures r > 0
  {
    pixels / IMAGE_TILE_PIXELS + (if pixels % IMAGE_TILE_PIXELS != 0 then 1 else 0)
  }

  /** A malformed size costs the maximum. The division guards the product: no image exceeds the cap. */
  function EstimateImageTokens(width: int, height: int): (r: nat)
    ensures MINIMUM_IMAGE_TOKENS <= r <= MAXIMUM_IMAGE_TOKENS
  {
    if width <= 0 || height <= 0 then MAXIMUM_IMAGE_TOKENS
    else
      var wide := Tiles(width);
      var high := Tiles(height);
      if wide > MAXIMUM_IMAGE_TOKENS / IMAGE_TILE_TOKENS / high then MAXIMUM_IMAGE_TOKENS
      else
        var estimate := wide * high * IMAGE_TILE_TOKENS;
        var floored := if estimate < MINIMUM_IMAGE_TOKENS then MINIMUM_IMAGE_TOKENS else estimate;
        if floored > MAXIMUM_IMAGE_TOKENS then MAXIMUM_IMAGE_TOKENS else floored
  }

  /**
   * An image of a valid size costs its tiles, within the bounds. The function never forms a product above the maximum:
   * the division decides beforehand whether the cap applies.
   */
  lemma ImageCostsItsTiles(width: int, height: int)
    ensures EstimateImageTokens(width, height) ==
      if width <= 0 || height <= 0 then MAXIMUM_IMAGE_TOKENS
      else Min(MAXIMUM_IMAGE_TOKENS, Max(MINIMUM_IMAGE_TOKENS, Tiles(width) * Tiles(height) * IMAGE_TILE_TOKENS))
  {
    if width > 0 && height > 0 {
      GuardByDivision(Tiles(width), Tiles(height), MAXIMUM_IMAGE_TOKENS / IMAGE_TILE_TOKENS);
    }
  }

  function PartTokens(parts: seq<Part>): nat {
    if parts == [] then 0
    else
      (if parts[0].ImagePart? then EstimateImageTokens(parts[0].width, parts[0].height) else 0) + PartTokens(parts[1..])
  }

  function EstimateMessage(m: Message): nat {
    EstimateTokens(m.content) + PartTokens(m.parts)
  }

  function EstimateMessages(ms: seq<Message>): nat {
    if ms == [] then 0 else EstimateMessages(ms[..|ms| - 1]) + EstimateMessage(ms[|ms| - 1])
  }

  lemma {:induction false} EstimateMessagesConcat(a: seq<Message>, b: seq<Message>)
    ensures EstimateMessages(a + b) == EstimateMessages(a) + EstimateMessages(b)
  {
    hide EstimateMessage;
    if b == [] {
      assert a + b == a;
    } else {
      assert (a + b)[..|a + b| - 1] == a + b[..|b| - 1];
      EstimateMessagesConcat(a, b[..|b| - 1]);
    }
  }
}
