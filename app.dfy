/** The chat application's state and its turn handling: the package-level
    prompts, clients and `history` (main.go:15-23), the turn functions of ai.go
    as methods over that state, and the Enter handler `sendMessage` of gui.go. */
module App {
  import opened Text
  import opened Conversation
  import opened Prompts
  import opened Pipeline

  class ChatApp {
    /** The persona and evaluator system prompts, built once at start-up. */
    var systemPrompt: string
    var evaluatorPrompt: string
    /** The two completion clients and the JSON codec. */
    const backend: Backend
    /** Every request made to either client, in order. */
    ghost var calls: seq<Call>
    /** The committed conversation, oldest entry first. */
    var history: seq<ChatMessage>
    /** The text in the input box. */
    var input: string

    ghost predicate Valid()
      reads this`history
    {
      IsTranscript(history)
    }

    /** The package state before `main` runs: both prompts empty, the
        clients set, no history and nothing typed. */
    constructor (backend: Backend)
      ensures Valid()
      ensures systemPrompt == [] && evaluatorPrompt == []
      ensures this.backend == backend
      ensures history == [] && input == [] && calls == []
    {
      systemPrompt := [];
      evaluatorPrompt := [];
      this.backend := backend;
      calls := [];
      history := [];
      input := [];
    }

    /** Start-up in `main`: both system prompts are built from the persona's
        name, the summary and the profile text. Nothing else changes. */
    method BuildPrompts(name: string, summary: string, linkedin: string)
      modifies this`systemPrompt, this`evaluatorPrompt
      ensures (systemPrompt, evaluatorPrompt)
              == (BuildSystemPrompt(name, summary, linkedin), BuildEvaluatorPrompt(name, summary, linkedin))
    {
      systemPrompt, evaluatorPrompt := BuildSystemPrompt(name, summary, linkedin), BuildEvaluatorPrompt(name, summary, linkedin);
    }

    /** A generation request to the primary client. */
    method CreateChatCompletion(messages: seq<ChatMessage>) returns (r: Result<string, Error>)
      modifies this`calls
      ensures r == backend.primary(messages)
      ensures calls == old(calls) + [PrimaryCall(messages)]
    {
      r := backend.primary(messages);
      calls := calls + [PrimaryCall(messages)];
    }

    /** A structured-output request to the evaluator client. */
    method CreateEvaluation(messages: seq<ChatMessage>) returns (r: Result<string, Error>)
      modifies this`calls
      ensures r == backend.evaluator(messages)
      ensures calls == old(calls) + [EvaluatorCall(messages)]
    {
      r := backend.evaluator(messages);
      calls := calls + [EvaluatorCall(messages)];
    }

    /** evaluateResponse: one evaluator request; a client error is returned as
        it is and an undecodable payload becomes a parse error. */
    method EvaluateResponse(reply: string, message: string, history: seq<ChatMessage>)
      returns (r: Result<Evaluation, Error>)
      modifies this`calls
      ensures r == Evaluate(evaluatorPrompt, backend, reply, message, history)
      ensures calls == old(calls) + [EvaluatorCall(EvaluatorMessages(evaluatorPrompt, backend, reply, message, history))]
    {
      var messages := [ChatMessage(RoleSystem, evaluatorPrompt),
                       ChatMessage(RoleUser, BuildEvaluatorUserPrompt(backend.marshal, reply, message, history))];
      var resp := CreateEvaluation(messages);
      if resp.Failure? {
        return Failure(resp.error);
      }
      var decoded := backend.decode(resp.value);
      if decoded.Failure? {
        return Failure(ParseEvaluation(decoded.error));
      }
      r := Success(decoded.value);
    }

    /** rerunWithFeedback: one more generation request whose system prompt is
        the base prompt plus the rejected draft and the feedback; its result,
        or its error, is returned unchanged. */
    method RerunWithFeedback(reply: string, message: string, history: seq<ChatMessage>, feedback: string)
      returns (r: Result<string, Error>)
      modifies this`calls
      ensures var retry := RequestMessages(RetrySystemPrompt(systemPrompt, reply, feedback), history, message);
              r == backend.primary(retry) && calls == old(calls) + [PrimaryCall(retry)]
    {
      var updated := systemPrompt + RejectionSection;
      updated := updated + AttemptHeader + reply + "\n\n";
      updated := updated + ReasonHeader + feedback + "\n\n";
      assert updated == RetrySystemPrompt(systemPrompt, reply, feedback);
      var messages := AssembleMessages(updated, history, message);
      r := CreateChatCompletion(messages);
    }

    /** processChat: the whole turn for `message` against the given history. */
    method ProcessChat(message: string, history: seq<ChatMessage>) returns (r: Result<string, Error>)
      modifies this`calls
      ensures var t := Turn(systemPrompt, evaluatorPrompt, backend, message, history);
              r == t.reply && calls == old(calls) + t.calls
    {
      var current := systemPrompt;
      if Contains(ToLower(message), Keyword) {
        current := current + PigLatinInstruction;
      }
      var messages := AssembleMessages(current, history, message);
      var resp := CreateChatCompletion(messages);
      if resp.Failure? {
        return Failure(ChatCompletion(resp.error));
      }
      var reply := resp.value;
      var evaluation := EvaluateResponse(reply, message, history);
      if evaluation.Failure? {
        return Failure(EvaluationFailed(evaluation.error));
      }
      if evaluation.value.isAcceptable {
        return Success(reply);
      }
      r := RerunWithFeedback(reply, message, history, evaluation.value.feedback);
    }

    /** sendMessage: trims the input box; empty input is ignored and left in the
        box. Otherwise the box is cleared, the turn runs on the history as it
        stood before this message, and the history is committed: unchanged on
        an error, extended by the user entry and the reply on success. */
    method SendMessage()
      requires Valid()
      modifies this`history, this`input, this`calls
      ensures Valid()
      ensures var message := TrimSpace(old(input));
              message == [] ==> input == old(input) && history == old(history) && calls == old(calls)
      ensures var message := TrimSpace(old(input));
              var t := Turn(systemPrompt, evaluatorPrompt, backend, message, old(history));
              message != [] ==> && input == []
                                && calls == old(calls) + t.calls
                                && history == Commit(old(history), message, t.reply)
    {
      var message := TrimSpace(input);
      if message == [] {
        return;
      }
      input := [];
      ghost var before := history;
      var reply := ProcessChat(message, history);
      TrimmedIsSubmitted(old(input));
      CommitKeepsTranscript(before, message, reply);
      if reply.Failure? {
        return;
      }
      CommitIsTwoAppends(history, message, reply);
      history := history + [ChatMessage(RoleUser, message)];
      history := history + [ChatMessage(RoleAssistant, reply.value)];
    }
  }
}
