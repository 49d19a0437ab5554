/** How much of the newest history a compaction keeps (internal/contextwindow/recent_tail.go). */
module RecentTail {
  import opened Integers

  const DEFAULT_TAIL_TOKENS := 20000
  const TAIL_DIVISOR := 3

  /** Go's division truncates; both dividends are positive where it is used. */
  function RecentTailTarget(contextWindow: int, currentTokens: int): (target: int)
    ensures target >= 1
    ensures currentTokens > 0 ==> forall tail: int :: tail < target ==> 3 * tail < currentTokens
    ensures contextWindow > 0 ==> target == 1 || 3 * target <= contextWindow
    ensures contextWindow <= 0 ==> target <= DEFAULT_TAIL_TOKENS
  {
    var contextTail := if contextWindow > 0 then Max(1, contextWindow / TAIL_DIVISOR) else DEFAULT_TAIL_TOKENS;
    if currentTokens <= 0 then contextTail
    else Min(contextTail, Max(1, (currentTokens + TAIL_DIVISOR - 1) / TAIL_DIVISOR))
  }

  /** internal/assistant/context_compaction.go: a positive configured maximum lowers the target further. */
  function CompactionTailTokens(contextWindow: int, currentTokens: int, configured: int): (target: int)
    ensures target >= 1
    ensures currentTokens > 0 ==> forall tail: int :: tail < target ==> 3 * tail < currentTokens
    ensures configured > 0 ==> target <= configured
  {
    var target := RecentTailTarget(contextWindow, currentTokens);
    if configured > 0 then Min(target, configured) else target
  }
}
