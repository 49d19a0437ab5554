/** Why a model response stopped (internal/llm/finish_reason.go). */
module FinishReasons {

  datatype FinishReason = Unknown | Stop | Length | ToolCalls | ContentFilter | Refusal | Error | Aborted
}
