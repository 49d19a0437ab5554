/**
 * Time and writes allowed for persisting a response (internal/assistant/runtime_persist.go,
 * internal/assistant/runtime.go).
 */
module PersistenceBudget {
  import opened Text
  import opened Integers

  const SECOND: Int64 := 1_000_000_000
  const MINIMUM_TIMEOUT: Int64 := 5 * SECOND
  const GRACE_PERIOD: Int64 := SECOND
  const BUSY_ATTEMPTS: Int64 := 3

  /** Every intermediate value is an Int64: the guards keep both products from wrapping around. */
  method PromptPersistenceTimeout(busyTimeout: Int64, writeOperations: Int64) returns (timeout: Int64)
    ensures timeout == Min(MAX_INT, IdealTimeout(busyTimeout) * Max(writeOperations, 1))
  {
    var perWrite: Int64 := MINIMUM_TIMEOUT;
    if busyTimeout > 0 {
      var maximumBusy: Int64 := (MAX_INT - GRACE_PERIOD) / BUSY_ATTEMPTS;
      if busyTimeout > maximumBusy {
        AtLeastOneWrite(IdealTimeout(busyTimeout), Max(writeOperations, 1));
        return MAX_INT;
      }
      var busy: Int64 := busyTimeout * BUSY_ATTEMPTS;
      var padded: Int64 := busy + GRACE_PERIOD;
      perWrite := Max(MINIMUM_TIMEOUT, padded);
    }
    var writes: Int64 := Max(writeOperations, 1);
    GuardByDivision(perWrite, writes, MAX_INT);
    if perWrite > MAX_INT / writes {
      return MAX_INT;
    }
    timeout := perWrite * writes;
  }

  /** The retry window of one write without a bound on its size. */
  function IdealTimeout(busyTimeout: int): int {
    if busyTimeout > 0 then Max(MINIMUM_TIMEOUT, BUSY_ATTEMPTS * busyTimeout + GRACE_PERIOD) else MINIMUM_TIMEOUT
  }

  lemma AtLeastOneWrite(perWrite: int, writes: int)
    requires perWrite > 0 && writes >= 1
    ensures perWrite * writes >= perWrite
  {
  }

  // ----- the writes of a response -----

  datatype Bundle = Bundle(text: string, thinking: seq<string>, toolEvents: seq<string>)

  datatype WriteKind = Thinking | ToolResult | Assistant

  /** An appended entry and the entry before it. */
  datatype Write = Write(id: string, kind: WriteKind, content: string, parent: string)

  /** Kind and content of an entry. */
  type Payload = (WriteKind, string)

  /** Every visible thinking text, trimmed. */
  function ThinkingPayloads(thinking: seq<string>): seq<Payload> {
    if thinking == [] then []
    else
      var trimmed := TrimSpace(thinking[|thinking| - 1]);
      ThinkingPayloads(thinking[..|thinking| - 1]) + (if trimmed == "" then [] else [(Thinking, trimmed)])
  }

  function ToolPayloads(events: seq<string>): (r: seq<Payload>)
    ensures |r| == |events| && forall i | 0 <= i < |events| :: r[i] == (ToolResult, events[i])
  {
    seq(|events|, i requires 0 <= i < |events| => (ToolResult, events[i]))
  }

  /** What a response persists, in order: its visible thinking, its tool events, and its text. */
  function SideEffects(bundle: Bundle): seq<Payload> {
    ThinkingPayloads(bundle.thinking) + ToolPayloads(bundle.toolEvents)
  }

  function Payloads(bundle: Bundle): seq<Payload> {
    SideEffects(bundle) + [(Assistant, bundle.text)]
  }

  method AssistantBundleWriteCount(bundle: Option<Bundle>) returns (count: nat)
    ensures count == if bundle.None? then 1 else |Payloads(bundle.value)|
  {
    if bundle.None? {
      return 1;
    }
    count := |bundle.value.toolEvents| + 1;
    var thinking := bundle.value.thinking;
    for index := 0 to |thinking|
      invariant count == |bundle.value.toolEvents| + 1 + |ThinkingPayloads(thinking[..index])|
    {
      assert thinking[..index + 1][..index] == thinking[..index];
      if TrimSpace(thinking[index]) != "" {
        count := count + 1;
      }
    }
    assert thinking[..|thinking|] == thinking;
  }

  /** The entries of one branch in the order of their appends; `fails` names the appends that the database refuses. */
  class Session {
    var writes: seq<Write>
    const ids: nat -> string
    const fails: nat -> bool

    constructor (ids: nat -> string, fails: nat -> bool)
      ensures writes == [] && this.ids == ids && this.fails == fails
    {
      this.writes, this.ids, this.fails := [], ids, fails;
    }

    method Append(kind: WriteKind, content: string, parent: string) returns (id: Option<string>)
      modifies this`writes
      ensures id == if fails(old(|writes|)) then None else Some(ids(old(|writes|)))
      ensures writes ==
        if id.None? then old(writes) else old(writes) + [Write(id.value, kind, content, parent)]
    {
      var n := |writes|;
      if fails(n) {
        return None;
      }
      writes := writes + [Write(ids(n), kind, content, parent)];
      id := Some(ids(n));
    }

    /** Thinking first, then tool results; returns the last entry that was appended, and whether all of them were. */
    method AppendAssistantSideEffects(parent: string, bundle: Bundle) returns (last: string, ok: bool)
      modifies this`writes
      ensures old(writes) <= writes && last == LastId(writes, old(|writes|), parent)
      ensures exists payloads :: IsChain(writes, old(|writes|), parent, payloads) && payloads <= SideEffects(bundle)
      ensures ok ==> IsChain(writes, old(|writes|), parent, SideEffects(bundle))
      ensures !ok ==> fails(|writes|)
    {
      hide IsChain, LastId, TrimSpace, ThinkingPayloads, ToolPayloads;
      ghost var start := |writes|;
      NothingWritten(writes, start, parent);
      last, ok := parent, true;
      var thinking := bundle.thinking;
      for index := 0 to |thinking|
        invariant old(writes) <= writes && last == LastId(writes, start, parent)
        invariant IsChain(writes, start, parent, ThinkingPayloads(thinking[..index]))
      {
        ThinkingNext(thinking, index);
        ThinkingPrefix(thinking, index);
        var trimmed := TrimSpace(thinking[index]);
        if trimmed == "" {
          assert ThinkingPayloads(thinking[..index]) + [] == ThinkingPayloads(thinking[..index]);
          continue;
        }
        ghost var before := writes;
        var id := Append(Thinking, trimmed, last);
        if id.None? {
          return last, false;
        }
        ghost var payloads := ThinkingPayloads(thinking[..index]);
        WrittenNext(before, start, parent, payloads, Write(id.value, Thinking, trimmed, last));
        last := id.value;
      }
      assert thinking[..|thinking|] == thinking;
      var events := bundle.toolEvents;
      ghost var first := ThinkingPayloads(thinking);
      assert first + ToolPayloads(events)[..0] == first;
      for index := 0 to |events|
        invariant old(writes) <= writes && last == LastId(writes, start, parent)
        invariant IsChain(writes, start, parent, first + ToolPayloads(events)[..index])
      {
        ghost var before := writes;
        ghost var payloads := first + ToolPayloads(events)[..index];
        var id := Append(ToolResult, events[index], last);
        if id.None? {
          assert payloads <= SideEffects(bundle);
          return last, false;
        }
        WrittenNext(before, start, parent, payloads, Write(id.value, ToolResult, events[index], last));
        ToolsNext(first, events, index);
        last := id.value;
      }
      assert ToolPayloads(events)[..|events|] == ToolPayloads(events);
    }

    /**
     * Persisting a response that succeeds appends exactly its payloads, one chain of entries that ends in the response;
     * one that fails appends a proper beginning of them, and reports where its chain ends.
     */
    method PersistAssistantBundle(parent: string, bundle: Bundle) returns (ok: bool, active: string)
      modifies this`writes
      ensures old(writes) <= writes && active == LastId(writes, old(|writes|), parent)
      ensures ok ==> IsChain(writes, old(|writes|), parent, Payloads(bundle))
      ensures !ok ==>
        exists payloads :: IsChain(writes, old(|writes|), parent, payloads) && payloads < Payloads(bundle)
    {
      hide IsChain, LastId, SideEffects;
      var last, appended := AppendAssistantSideEffects(parent, bundle);
      active := last;
      ghost var payloads :| IsChain(writes, old(|writes|), parent, payloads) && payloads <= SideEffects(bundle);
      if !appended {
        assert payloads < Payloads(bundle);
        return false, active;
      }
      ghost var before := writes;
      var id := Append(Assistant, bundle.text, last);
      if id.None? {
        assert payloads < Payloads(bundle);
        return false, active;
      }
      WrittenNext(before, old(|writes|), parent, SideEffects(bundle), Write(id.value, Assistant, bundle.text, last));
      ok, active := true, id.value;
    }
  }

  lemma NothingWritten(writes: seq<Write>, start: nat, parent: string)
    requires |writes| == start
    ensures IsChain(writes, start, parent, ThinkingPayloads([])) && LastId(writes, start, parent) == parent
  {
  }

  lemma WrittenNext(writes: seq<Write>, start: nat, parent: string, payloads: seq<Payload>, w: Write)
    requires IsChain(writes, start, parent, payloads) && w.parent == LastId(writes, start, parent)
    ensures IsChain(writes + [w], start, parent, payloads + [(w.kind, w.content)])
    ensures LastId(writes + [w], start, parent) == w.id
  {
    var longer, more := writes + [w], payloads + [(w.kind, w.content)];
    forall k | start <= k < |longer|
      ensures longer[k].parent == LastId(longer[..k], start, parent)
      ensures more[k - start] == (longer[k].kind, longer[k].content)
    {
      assert longer[..k] == writes[..k];
      assert k == |writes| ==> writes[..k] == writes;
    }
  }

  lemma ThinkingNext(thinking: seq<string>, k: nat)
    requires k < |thinking|
    ensures var trimmed := TrimSpace(thinking[k]);
      ThinkingPayloads(thinking[..k + 1]) ==
        ThinkingPayloads(thinking[..k]) + (if trimmed == "" then [] else [(Thinking, trimmed)])
  {
    assert thinking[..k + 1][..k] == thinking[..k];
  }

  lemma ToolsNext(first: seq<Payload>, events: seq<string>, k: nat)
    requires k < |events|
    ensures first + ToolPayloads(events)[..k] + [(ToolResult, events[k])] == first + ToolPayloads(events)[..k + 1]
  {
  }

  lemma {:induction false} ThinkingPrefix(thinking: seq<string>, k: nat)
    requires k <= |thinking|
    ensures ThinkingPayloads(thinking[..k]) <= ThinkingPayloads(thinking)
    decreases |thinking|
  {
    var n := |thinking|;
    if k == n {
      assert thinking[..k] == thinking;
    } else {
      ThinkingPrefix(thinking[..n - 1], k);
      assert thinking[..n - 1][..k] == thinking[..k];
    }
  }

  function LastId(writes: seq<Write>, start: nat, parent: string): string {
    if |writes| <= start then parent else writes[|writes| - 1].id
  }

  /** The writes since the start carry these payloads, and each continues the one before it, the first the parent. */
  ghost predicate IsChain(writes: seq<Write>, start: nat, parent: string, payloads: seq<Payload>) {
    && |writes| == start + |payloads|
    && forall k | start <= k < |writes| ::
      && writes[k].parent == LastId(writes[..k], start, parent)
      && payloads[k - start] == (writes[k].kind, writes[k].content)
  }
}
