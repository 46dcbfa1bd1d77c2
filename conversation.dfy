/** The values a chat turn works with: conversation entries, the evaluator's
    verdict, and the errors a turn can end in (ai.go:14-24). */
module Conversation {

  /** Either a value or an error; the model's counterpart of Go's `(T, error)` pair. */
  datatype Result<+T, +E> = Success(value: T) | Failure(error: E)

  /** Role names as the chat-completion protocol spells them. */
  const RoleSystem := "system"
  const RoleUser := "user"
  const RoleAssistant := "assistant"

  /** One entry of the conversation, or of a request sent to a model. */
  datatype ChatMessage = ChatMessage(role: string, content: string)

  /** The evaluator's structured answer: `{is_acceptable, feedback}`. */
  datatype Evaluation = Evaluation(isAcceptable: bool, feedback: string)

  /** What a turn can fail with. The wrapping constructors stand for the
      `fmt.Errorf` prefixes that ai.go adds around an underlying error. */
  datatype Error =
    | RequestError(detail: string)     // a completion client's own error
    | ChatCompletion(cause: Error)     // "chat completion error: %w"
    | EvaluationFailed(cause: Error)   // "evaluation error: %w"
    | ParseEvaluation(detail: string)  // "Failed to parse evaluation: %w"
}
