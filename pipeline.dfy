/** One chat turn (ai.go:62-196) as specification functions over abstract
    backends: the keyword rule, the request layout, the evaluator's verdict
    and the generate / evaluate / regenerate-once branch structure. */
module Pipeline {
  import opened Text
  import opened Conversation
  import opened Prompts

  /** The two completion clients and the JSON codec, left uninterpreted.
      `primary` answers a generation request, `evaluator` returns the raw
      structured payload for an evaluation request, `decode` is
      `json.Unmarshal` into an Evaluation (failing with a message) and
      `marshal` is `json.MarshalIndent` of the history. */
  datatype Backend = Backend(
    primary: seq<ChatMessage> -> Result<string, Error>,
    evaluator: seq<ChatMessage> -> Result<string, Error>,
    decode: string -> Result<Evaluation, string>,
    marshal: seq<ChatMessage> -> string)

  /** A request sent to one of the two clients, in the order they were made. */
  datatype Call = PrimaryCall(messages: seq<ChatMessage>) | EvaluatorCall(messages: seq<ChatMessage>)

  /** What a turn returns, and the requests it made on the way. */
  datatype TurnOutcome = TurnOutcome(reply: Result<string, Error>, calls: seq<Call>)

  const Keyword := "patent"

  // The two fixed texts below are split into shorter literals only so that
  // the verifier can read single characters out of them.
  const PigLatinInstruction :=
    "\n\nEverything in your reply " + "needs to be in pig latin - "
    + "it is mandatory that you respond only and entirely in pig latin"

  const RejectionSection :=
    "\n\n## Previous answer rejected\n"
    + "You just tried to reply, but the quality control rejected your reply\n"
  const AttemptHeader := "## Your attempted answer:\n"
  const ReasonHeader := "## Reason for rejection:\n"

  /** The keyword test: the lower-cased message contains "patent". */
  predicate HasKeyword(message: string) {
    Contains(ToLower(message), Keyword)
  }

  /** The system prompt of the first generation call: the base prompt, with the
      pig-latin instruction appended if and only if the message has the keyword. */
  function CurrentSystemPrompt(base: string, message: string): (r: string)
    ensures IsPrefix(base, r)
    ensures |r| > |base| <==> HasKeyword(message)
    ensures |r| > |base| ==> r[|base|..] == PigLatinInstruction
  {
    if HasKeyword(message) then base + PigLatinInstruction else base
  }

  /** The system prompt of the regeneration call: the base prompt (never the
      keyword-extended one), the rejection notice, the rejected draft under its
      heading and the evaluator's feedback under its heading. */
  function RetrySystemPrompt(base: string, draft: string, feedback: string): (r: string)
    ensures IsPrefix(base + RejectionSection, r)
    ensures OccursAt(r, AttemptHeader + draft + "\n\n", |base| + |RejectionSection|)
    ensures OccursAt(r, ReasonHeader + feedback + "\n\n",
                     |base| + |RejectionSection| + |AttemptHeader| + |draft| + 2)
    ensures |r| == |base| + |RejectionSection| + |AttemptHeader| + |draft| + |ReasonHeader| + |feedback| + 4
  {
    var a := base + RejectionSection;
    var b := AttemptHeader + draft + "\n\n";
    var c := ReasonHeader + feedback + "\n\n";
    var r := a + b + c;
    assert r[|a|..|a| + |b|] == b;
    assert r[|a| + |b|..] == c;
    r
  }

  /** The messages of a generation request: the system prompt, then the
      history entries unchanged and in order, then the user's message. */
  function RequestMessages(system: string, history: seq<ChatMessage>, message: string): (r: seq<ChatMessage>)
    ensures |r| == |history| + 2
    ensures r[0] == ChatMessage(RoleSystem, system)
    ensures forall i :: 0 <= i < |history| ==> r[i + 1] == history[i]
    ensures r[|r| - 1] == ChatMessage(RoleUser, message)
  {
    [ChatMessage(RoleSystem, system)] + history + [ChatMessage(RoleUser, message)]
  }

  /** The loop of ai.go:72-84 (and ai.go:172-185): the request list is grown one
      history entry at a time, copying role and content. */
  method AssembleMessages(system: string, history: seq<ChatMessage>, message: string)
    returns (messages: seq<ChatMessage>)
    ensures messages == RequestMessages(system, history, message)
  {
    messages := [ChatMessage(RoleSystem, system)];
    for i := 0 to |history|
      invariant messages == [ChatMessage(RoleSystem, system)] + history[..i]
    {
      messages := messages + [ChatMessage(history[i].role, history[i].content)];
    }
    messages := messages + [ChatMessage(RoleUser, message)];
  }

  /** The request sent to the evaluator: its system prompt and the user prompt
      built from the history, the message and the draft. */
  function EvaluatorMessages(evaluatorPrompt: string, b: Backend, reply: string, message: string,
                             history: seq<ChatMessage>): seq<ChatMessage>
  {
    [ChatMessage(RoleSystem, evaluatorPrompt),
     ChatMessage(RoleUser, BuildEvaluatorUserPrompt(b.marshal, reply, message, history))]
  }

  /** evaluateResponse: a client error is passed on as it is, a payload that
      does not decode is a parse error, otherwise the decoded verdict. */
  function Evaluate(evaluatorPrompt: string, b: Backend, reply: string, message: string,
                    history: seq<ChatMessage>): (r: Result<Evaluation, Error>)
    ensures var raw := b.evaluator(EvaluatorMessages(evaluatorPrompt, b, reply, message, history));
            r.Success? ==> raw.Success? && b.decode(raw.value) == Success(r.value)
    ensures var raw := b.evaluator(EvaluatorMessages(evaluatorPrompt, b, reply, message, history));
            raw.Failure? ==> r == Failure(raw.error)
    ensures var raw := b.evaluator(EvaluatorMessages(evaluatorPrompt, b, reply, message, history));
            raw.Success? && b.decode(raw.value).Failure? ==> r == Failure(ParseEvaluation(b.decode(raw.value).error))
    ensures var raw := b.evaluator(EvaluatorMessages(evaluatorPrompt, b, reply, message, history));
            raw.Success? && b.decode(raw.value).Success? ==> r == Success(b.decode(raw.value).value)
  {
    match b.evaluator(EvaluatorMessages(evaluatorPrompt, b, reply, message, history))
    case Failure(e) => Failure(e)
    case Success(payload) =>
      match b.decode(payload)
      case Failure(detail) => Failure(ParseEvaluation(detail))
      case Success(evaluation) => Success(evaluation)
  }

  /** The shape every generation request of a turn has. */
  predicate IsRequestFor(messages: seq<ChatMessage>, history: seq<ChatMessage>, message: string) {
    && |messages| == |history| + 2
    && messages[0].role == RoleSystem
    && messages[1..|history| + 1] == history
    && messages[|history| + 1] == ChatMessage(RoleUser, message)
  }

  /** processChat: generate a draft, have it evaluated, and either return it or
      regenerate exactly once with the rejection in the system prompt. */
  function Turn(systemPrompt: string, evaluatorPrompt: string, b: Backend, message: string,
                history: seq<ChatMessage>): (t: TurnOutcome)
    ensures 1 <= |t.calls| <= 3
    ensures t.calls[0] == PrimaryCall(RequestMessages(CurrentSystemPrompt(systemPrompt, message), history, message))
    ensures forall c :: c in t.calls && c.PrimaryCall? ==> IsRequestFor(c.messages, history, message)
  {
    var first := RequestMessages(CurrentSystemPrompt(systemPrompt, message), history, message);
    match b.primary(first)
    case Failure(e) => TurnOutcome(Failure(ChatCompletion(e)), [PrimaryCall(first)])
    case Success(draft) =>
      var review := EvaluatorMessages(evaluatorPrompt, b, draft, message, history);
      match Evaluate(evaluatorPrompt, b, draft, message, history)
      case Failure(e) => TurnOutcome(Failure(EvaluationFailed(e)), [PrimaryCall(first), EvaluatorCall(review)])
      case Success(evaluation) =>
        if evaluation.isAcceptable then
          TurnOutcome(Success(draft), [PrimaryCall(first), EvaluatorCall(review)])
        else
          var retry := RequestMessages(RetrySystemPrompt(systemPrompt, draft, evaluation.feedback), history, message);
          assert IsRequestFor(retry, history, message);
          TurnOutcome(b.primary(retry), [PrimaryCall(first), EvaluatorCall(review), PrimaryCall(retry)])
  }

  /** The history after a turn: unchanged on an error, otherwise the user's
      message and then the reply appended, everything earlier kept as a prefix. */
  function Commit(history: seq<ChatMessage>, message: string, reply: Result<string, Error>): (h: seq<ChatMessage>)
    ensures reply.Failure? ==> h == history
    ensures reply.Success? ==> && |h| == |history| + 2 && h[..|history|] == history
                               && h[|history|] == ChatMessage(RoleUser, message)
                               && h[|history| + 1] == ChatMessage(RoleAssistant, reply.value)
  {
    match reply
    case Failure(_) => history
    case Success(text) => history + [ChatMessage(RoleUser, message), ChatMessage(RoleAssistant, text)]
  }

  // ----- The keyword rule -----

  /** Some case variant of the keyword starts at index `k` of the message. */
  predicate KeywordAt(message: string, k: int) {
    0 <= k && k + |Keyword| <= |message| && ToLower(message[k..k + |Keyword|]) == Keyword
  }

  /** The keyword test is a case-insensitive substring test: it holds exactly
      when some slice of the message lower-cases to "patent". */
  lemma {:induction false} KeywordCaseInsensitive(message: string)
    ensures HasKeyword(message) <==> exists k :: KeywordAt(message, k)
  {
    if HasKeyword(message) {
      var k :| 0 <= k <= |message| - |Keyword| && OccursAt(ToLower(message), Keyword, k);
      ToLowerSlice(message, k, k + |Keyword|);
      assert KeywordAt(message, k);
    }
    if k :| KeywordAt(message, k) {
      ToLowerSlice(message, k, k + |Keyword|);
      assert OccursAt(ToLower(message), Keyword, k);
    }
  }

  /** Any message holding a case variant of the keyword gets the pig-latin
      instruction, wherever the variant stands. */
  lemma {:induction false} VariantTriggersPigLatin(base: string, before: string, variant: string, after: string)
    requires ToLower(variant) == Keyword
    ensures CurrentSystemPrompt(base, before + variant + after) == base + PigLatinInstruction
  {
    var m := before + variant + after;
    assert m[|before|..|before| + |Keyword|] == variant;
    assert KeywordAt(m, |before|);
    KeywordCaseInsensitive(m);
  }

  /** Without the keyword the first call's system prompt is the base prompt exactly. */
  lemma NoKeywordKeepsBase(base: string, message: string)
    requires !HasKeyword(message)
    ensures CurrentSystemPrompt(base, message) == base
  {
  }

  /** "Patent", "PATENT" and "...patent..." all trigger the instruction. */
  lemma KeywordExamples()
    ensures HasKeyword("Patent") && HasKeyword("PATENT") && HasKeyword("my patents")
  {
    assert ToLower("Patent") == Keyword && ToLower("PATENT") == Keyword;
    VariantTriggersPigLatin("", "", "Patent", "");
    assert "" + "Patent" + "" == "Patent";
    VariantTriggersPigLatin("", "", "PATENT", "");
    assert "" + "PATENT" + "" == "PATENT";
    VariantTriggersPigLatin("", "my ", "patent", "s");
    assert "my " + "patent" + "s" == "my patents";
  }

  /** A message in which no letter p or P is directly followed by a or A
      cannot contain the keyword. */
  lemma NoPaPairNoKeyword(m: string)
    requires forall k :: 0 <= k < |m| - 1 ==> LowerChar(m[k]) != 'p' || LowerChar(m[k + 1]) != 'a'
    ensures !HasKeyword(m)
  {
    var lower := ToLower(m);
    assert Keyword[0] == 'p' && Keyword[1] == 'a';
    forall k | 0 <= k <= |lower| - |Keyword|
      ensures !OccursAt(lower, Keyword, k)
    {
      assert lower[k] == LowerChar(m[k]) && lower[k + 1] == LowerChar(m[k + 1]);
    }
  }

  const ExperienceQuestion := "What's your experience?"

  /** A question without any case variant of the keyword does not trigger it. */
  lemma NonKeywordExample()
    ensures !HasKeyword(ExperienceQuestion)
  {
    var m := ExperienceQuestion;
    forall k | 0 <= k < |m| - 1
      ensures LowerChar(m[k]) != 'p' || LowerChar(m[k + 1]) != 'a'
    {
    }
    NoPaPairNoKeyword(m);
  }

  // ----- The regeneration prompt -----

  /** The regeneration prompt carries the rejected draft and the feedback. */
  lemma {:induction false} RetryCarriesRejection(base: string, draft: string, feedback: string)
    ensures Contains(RetrySystemPrompt(base, draft, feedback), draft)
    ensures Contains(RetrySystemPrompt(base, draft, feedback), feedback)
  {
    var r := RetrySystemPrompt(base, draft, feedback);
    var i := |base| + |RejectionSection|;
    OccursBetween(AttemptHeader, draft, "\n\n");
    OccursWithin(r, AttemptHeader + draft + "\n\n", i, draft, |AttemptHeader|);
    OccursBetween(ReasonHeader, feedback, "\n\n");
    OccursWithin(r, ReasonHeader + feedback + "\n\n", i + |AttemptHeader| + |draft| + 2, feedback, |ReasonHeader|);
  }

  /** The regeneration prompt is built on the base prompt and never on the
      keyword-extended one: whatever the draft and the feedback, it does not
      start with the pig-latin prompt. */
  lemma {:induction false} RetryOmitsPigLatin(base: string, draft: string, feedback: string)
    ensures !IsPrefix(base + PigLatinInstruction, RetrySystemPrompt(base, draft, feedback))
  {
    var r := RetrySystemPrompt(base, draft, feedback);
    assert RejectionSection[2] == '#' && PigLatinInstruction[2] == 'E';
    assert (base + RejectionSection)[|base| + 2] == '#';
    assert r[..|base| + |RejectionSection|][|base| + 2] == '#';
    assert r[|base| + 2] == '#';
    assert (base + PigLatinInstruction)[|base| + 2] == 'E';
  }

  // ----- The four ways a turn ends -----

  /** If the first generation fails, the turn fails and the evaluator is not asked. */
  lemma TurnGenerationFails(systemPrompt: string, evaluatorPrompt: string, b: Backend, message: string,
                            history: seq<ChatMessage>)
    requires b.primary(RequestMessages(CurrentSystemPrompt(systemPrompt, message), history, message)).Failure?
    ensures var t := Turn(systemPrompt, evaluatorPrompt, b, message, history);
            var first := RequestMessages(CurrentSystemPrompt(systemPrompt, message), history, message);
            && t.reply == Failure(ChatCompletion(b.primary(first).error))
            && t.calls == [PrimaryCall(first)]
  {
  }

  /** If the evaluation fails or its payload does not decode, the turn fails,
      the draft is dropped, and there is no second generation. */
  lemma TurnEvaluationFails(systemPrompt: string, evaluatorPrompt: string, b: Backend, message: string,
                            history: seq<ChatMessage>)
    requires var first := RequestMessages(CurrentSystemPrompt(systemPrompt, message), history, message);
             && b.primary(first).Success?
             && Evaluate(evaluatorPrompt, b, b.primary(first).value, message, history).Failure?
    ensures var t := Turn(systemPrompt, evaluatorPrompt, b, message, history);
            var first := RequestMessages(CurrentSystemPrompt(systemPrompt, message), history, message);
            var draft := b.primary(first).value;
            && t.reply == Failure(EvaluationFailed(Evaluate(evaluatorPrompt, b, draft, message, history).error))
            && t.calls == [PrimaryCall(first), EvaluatorCall(EvaluatorMessages(evaluatorPrompt, b, draft, message, history))]
  {
  }

  /** An evaluator payload that does not decode is a parse error of the turn. */
  lemma UndecodablePayloadFails(evaluatorPrompt: string, b: Backend, reply: string, message: string,
                                history: seq<ChatMessage>)
    requires var raw := b.evaluator(EvaluatorMessages(evaluatorPrompt, b, reply, message, history));
             raw.Success? && b.decode(raw.value).Failure?
    ensures var raw := b.evaluator(EvaluatorMessages(evaluatorPrompt, b, reply, message, history));
            Evaluate(evaluatorPrompt, b, reply, message, history) == Failure(ParseEvaluation(b.decode(raw.value).error))
  {
  }

  /** An accepted draft is returned verbatim after one generation call. */
  lemma TurnAccepted(systemPrompt: string, evaluatorPrompt: string, b: Backend, message: string,
                     history: seq<ChatMessage>)
    requires var first := RequestMessages(CurrentSystemPrompt(systemPrompt, message), history, message);
             && b.primary(first).Success?
             && var v := Evaluate(evaluatorPrompt, b, b.primary(first).value, message, history);
                v.Success? && v.value.isAcceptable
    ensures var t := Turn(systemPrompt, evaluatorPrompt, b, message, history);
            var first := RequestMessages(CurrentSystemPrompt(systemPrompt, message), history, message);
            var draft := b.primary(first).value;
            && t.reply == Success(draft)
            && t.calls == [PrimaryCall(first), EvaluatorCall(EvaluatorMessages(evaluatorPrompt, b, draft, message, history))]
  {
  }

  /** A rejected draft leads to exactly one more generation call, built on the
      base prompt with the draft and the feedback; its result, success or error,
      is the turn's result and is not evaluated again. */
  lemma TurnRejected(systemPrompt: string, evaluatorPrompt: string, b: Backend, message: string,
                     history: seq<ChatMessage>)
    requires var first := RequestMessages(CurrentSystemPrompt(systemPrompt, message), history, message);
             && b.primary(first).Success?
             && var v := Evaluate(evaluatorPrompt, b, b.primary(first).value, message, history);
                v.Success? && !v.value.isAcceptable
    ensures var t := Turn(systemPrompt, evaluatorPrompt, b, message, history);
            var first := RequestMessages(CurrentSystemPrompt(systemPrompt, message), history, message);
            var draft := b.primary(first).value;
            var feedback := Evaluate(evaluatorPrompt, b, draft, message, history).value.feedback;
            var retry := RequestMessages(RetrySystemPrompt(systemPrompt, draft, feedback), history, message);
            && t.reply == b.primary(retry)
            && t.calls == [PrimaryCall(first), EvaluatorCall(EvaluatorMessages(evaluatorPrompt, b, draft, message, history)),
                           PrimaryCall(retry)]
  {
  }

  /** The evaluator is shown the history, the message and the draft of this turn. */
  lemma {:induction false} EvaluatorSeesDraft(evaluatorPrompt: string, b: Backend, reply: string, message: string,
                                              history: seq<ChatMessage>)
    ensures var m := EvaluatorMessages(evaluatorPrompt, b, reply, message, history);
            && m[0] == ChatMessage(RoleSystem, evaluatorPrompt)
            && m[1].role == RoleUser
            && Contains(m[1].content, b.marshal(history))
            && Contains(m[1].content, message)
            && Contains(m[1].content, reply)
  {
    var u := BuildEvaluatorUserPrompt(b.marshal, reply, message, history);
    var h := b.marshal(history);
    OccursBetween(ConversationHeader, h, "\n\n");
    OccursWithin(u, ConversationHeader + h + "\n\n", 0, h, |ConversationHeader|);
    OccursBetween(MessageHeader, message, "\n\n");
    OccursWithin(u, MessageHeader + message + "\n\n", MessageOffset(h) - |MessageHeader|, message, |MessageHeader|);
    OccursBetween(ReplyHeader, reply, "\n\n");
    OccursWithin(u, ReplyHeader + reply + "\n\n", ReplyOffset(h, message) - |ReplyHeader|, reply, |ReplyHeader|);
  }

  // ----- The history across turns -----

  /** A message as the input box submits it: trimmed and not empty. */
  predicate IsSubmitted(message: string) {
    message != [] && TrimSpace(message) == message
  }

  /** The conversation history the chat builds: user and assistant entries
      alternate, starting with the user, and every user entry is a submitted
      message. */
  ghost predicate IsTranscript(history: seq<ChatMessage>) {
    && |history| % 2 == 0
    && forall i :: 0 <= i < |history| ==>
         if i % 2 == 0 then history[i].role == RoleUser && IsSubmitted(history[i].content)
         else history[i].role == RoleAssistant
  }

  /** Committing a turn keeps the history a transcript. */
  lemma {:induction false} CommitKeepsTranscript(history: seq<ChatMessage>, message: string, reply: Result<string, Error>)
    requires IsTranscript(history) && IsSubmitted(message)
    ensures IsTranscript(Commit(history, message, reply))
  {
    var h := Commit(history, message, reply);
    if reply.Success? {
      forall i | 0 <= i < |h|
        ensures if i % 2 == 0 then h[i].role == RoleUser && IsSubmitted(h[i].content)
                else h[i].role == RoleAssistant
      {
        if i < |history| {
          assert h[i] == history[i];
        }
      }
    }
  }

  /** Helper for SendMessage: a successful commit is the two successive appends. */
  lemma CommitIsTwoAppends(history: seq<ChatMessage>, message: string, reply: Result<string, Error>)
    requires reply.Success?
    ensures Commit(history, message, reply)
            == history + [ChatMessage(RoleUser, message)] + [ChatMessage(RoleAssistant, reply.value)]
  {
  }

  /** A trimmed, non-empty input is a submitted message. */
  lemma TrimmedIsSubmitted(input: string)
    requires TrimSpace(input) != []
    ensures IsSubmitted(TrimSpace(input))
  {
    TrimSpaceIdempotent(input);
  }
}
