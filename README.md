# superchat chat turn, modelled in Dafny

superchat is a terminal chat application that role-plays a person. The primary
model drafts each reply. A second, independent model then judges the draft. A
rejected draft is regenerated exactly once, with the evaluator's feedback in the
system prompt, and the result is not judged again. This project models one chat
turn and proves properties of it:

- **Prompt building** (`prompts.dfy`, module `Prompts`). The persona system
  prompt, the evaluator system prompt, and the evaluator's per-turn user prompt.
- **The turn** (`pipeline.dfy`, module `Pipeline`):
  - the "patent" keyword rule;
  - the layout of every generation request;
  - the generate → evaluate → accept-or-regenerate-once branches, as the
    specification function `Turn`;
  - the history commit, as `Commit`.
- **The application state** (`app.dfy`, class `App.ChatApp`):
  - the package-level prompts, clients and `history`, and the input box;
  - start-up, where `BuildPrompts` sets both system prompts from the profile;
  - `ProcessChat`, `EvaluateResponse` and `RerunWithFeedback` as methods whose
    every backend request is logged;
  - `SendMessage`, the Enter handler.

  Each method is proved equal to the specification functions. `SendMessage`
  also keeps the history an alternating user/assistant transcript.
- **Shared helpers.** `conversation.dfy` holds the data types.
  `text.dfy` holds `TrimSpace`, `ToLower` and `Contains`.

The two completion clients and the JSON codec are uninterpreted. They are the
fields of `Pipeline.Backend`, and `Turn` and `ChatApp` are proved for every
choice of them:
- `primary` is the responder model;
- `evaluator` returns the evaluator's raw structured payload;
- `decode` stands for `json.Unmarshal`;
- `marshal` stands for `json.MarshalIndent`.

Behaviour kept as the code has it:
- The regeneration prompt is built on the base system prompt. It drops the
  pig-latin instruction even when the message holds the keyword
  (`Pipeline.RetryOmitsPigLatin`).
- If the regeneration call fails, its error is returned unwrapped, without the
  "chat completion error" prefix of the first call.
- Input that is empty after trimming is ignored and stays in the input box. The
  box is cleared only when a message is actually sent (gui.go:73-79).

## Model

| member | source | states |
|---|---|---|
| Text.TrimSpace | gui.go:73 | The sent message is the input with white space (Go's `unicode.IsSpace` set) removed from both ends only. The result neither starts nor ends with white space. It is empty exactly when the input is all white space. |
| Text.TrimSpaceIdempotent | gui.go:73 | Trimming twice is the same as trimming once. |
| Text.ToLower | ai.go:66 | Lower-casing keeps the length and lower-cases each character in place. |
| Text.ToLowerSlice | ai.go:66 | Lower-casing commutes with slicing. This is what makes the keyword test position-independent. |
| Prompts.BuildSystemPrompt | ai.go:26-38 | The persona prompt opens with the persona introduction. It holds the summary under `## Summary:` and then the profile under `## LinkedIn Profile:`. It ends with the closing instruction that names the persona. The exact length shows that these parts make up the whole prompt. |
| Prompts.BuildEvaluatorPrompt | ai.go:40-51 | The evaluator prompt has the same layout: its own introduction, the same context block, and the fixed closing request to evaluate the latest response. |
| Prompts.BuildEvaluatorUserPrompt | ai.go:53-60 | The evaluator user prompt holds the serialised history, then the user message, then the agent reply, each under its heading and in that order. It ends with the fixed evaluation request. |
| Prompts.ContextSectionLayout | ai.go:34 | The shared context block places the summary and the profile at fixed offsets after its blank-line separator. |
| Pipeline.CurrentSystemPrompt | ai.go:65-69 | The first call's system prompt always starts with the base prompt. It is longer than the base if and only if the lower-cased message contains "patent", and then the extra text is exactly the pig-latin instruction. |
| Pipeline.KeywordCaseInsensitive | ai.go:66 | The keyword test holds if and only if some slice of the message lower-cases to "patent". |
| Pipeline.VariantTriggersPigLatin | ai.go:66-69 | Any message that contains any case variant of "patent", at any position, gets the pig-latin prompt. |
| Pipeline.NoKeywordKeepsBase | ai.go:65-69 | Without the keyword, the system prompt is the base prompt exactly. |
| Pipeline.KeywordExamples | ai.go:66 | "Patent", "PATENT" and "my patents" trigger the rule. |
| Pipeline.NoPaPairNoKeyword | ai.go:66 | A message in which no p or P is directly followed by an a or A never triggers the rule. |
| Pipeline.NonKeywordExample | ai.go:66 | "What's your experience?" does not trigger the rule. |
| Pipeline.RetrySystemPrompt | ai.go:168-170 | The regeneration prompt is the base prompt plus the rejection notice. Then comes the draft under `## Your attempted answer:`, then the feedback under `## Reason for rejection:`, with nothing else. |
| Pipeline.RetryCarriesRejection | ai.go:168-170 | The regeneration prompt contains both the rejected draft and the feedback text. |
| Pipeline.RetryOmitsPigLatin | ai.go:168 | The regeneration prompt never starts with base prompt + pig-latin instruction, whatever the draft and the feedback. |
| Pipeline.RequestMessages | ai.go:72-84 | A generation request has length \|history\|+2. Element 0 is the system prompt, the history entries follow unchanged and in order, and the last element is `{user, message}`. |
| Pipeline.AssembleMessages | ai.go:175-185 | The loop that grows the request one history entry at a time yields exactly `RequestMessages`. |
| Pipeline.Evaluate | ai.go:155-164 | All three outcomes are stated. A client error is passed on unchanged. A payload that does not decode gives a parse error carrying the decoder's error. A payload that decodes gives exactly the decoded verdict, and no other result is a success. |
| Pipeline.Turn | ai.go:62-120 | A turn makes one to three requests and the first is the generation request. Every generation request it makes, the retry included, has the shape of `RequestMessages` over the same history and message. |
| Pipeline.TurnGenerationFails | ai.go:87-93 | If the first generation fails, the turn fails with a chat-completion error and the evaluator is never called. |
| Pipeline.TurnEvaluationFails | ai.go:97-101 | If evaluation fails, the turn fails with an evaluation error. The draft is not returned and there is no second generation. |
| Pipeline.UndecodablePayloadFails | ai.go:159-162 | A payload that does not decode is a parse error. |
| Pipeline.TurnAccepted | ai.go:103-109 | An accepted draft is returned verbatim after exactly one generation call and one evaluation call. |
| Pipeline.TurnRejected | ai.go:111-118 | A rejected draft causes exactly one more generation call, with the regeneration prompt over the same history and message. Its result or error is returned unchanged, with no second evaluation. |
| Pipeline.EvaluatorSeesDraft | ai.go:138-141 | The evaluator request is the evaluator prompt plus a user prompt. That prompt contains the serialised history, the message and the draft. |
| Pipeline.Commit | gui.go:88-98 | On error the history is unchanged. On success it grows by exactly `{user, message}` then `{assistant, reply}`, and the old history is kept as a prefix. |
| Pipeline.CommitKeepsTranscript | gui.go:97-98 | Committing a submitted message keeps the history alternating user/assistant, with every user entry trimmed and non-empty. |
| Pipeline.TrimmedIsSubmitted | gui.go:73-76 | A message that passes the emptiness check is trimmed and non-empty. |
| App.ChatApp.constructor | main.go:15-23 | The package state before start-up: both prompts are empty (Go's zero value), there is no history, the input box is empty and no request has been made. |
| App.ChatApp.BuildPrompts | main.go:47-48 | Start-up sets the persona prompt to `BuildSystemPrompt` and the evaluator prompt to `BuildEvaluatorPrompt` of the name, the summary and the profile text, and changes nothing else. |
| App.ChatApp.CreateChatCompletion | ai.go:87-90 | A generation request returns the primary client's answer and is logged. |
| App.ChatApp.CreateEvaluation | ai.go:143-154 | An evaluation request returns the evaluator client's payload and is logged. |
| App.ChatApp.EvaluateResponse | ai.go:122-165 | evaluateResponse makes one logged evaluator request and returns `Evaluate`. |
| App.ChatApp.RerunWithFeedback | ai.go:167-196 | rerunWithFeedback makes one logged generation request with the regeneration prompt and returns its result unchanged. |
| App.ChatApp.ProcessChat | ai.go:62-120 | processChat returns `Turn`'s reply, and the requests it logs are exactly `Turn`'s requests, in order. |
| App.ChatApp.SendMessage | gui.go:72-108 | Empty trimmed input changes nothing. Otherwise it does three things. It clears the box. It runs the turn on the history as it was before this message. It commits with `Commit`, so an error leaves the history unchanged. It keeps the transcript invariant. |

## Left out

- Start-up (main.go): loading the environment and the `.env` file, building
  the clients from API keys and a base URL, reading the profile and the
  summary, and the fatal exits. The clients are the constructor's `backend`
  parameter. The name, the summary and the profile text are parameters of
  `BuildPrompts`.
- Reading the profile document (utils.go `readPDF`): file input through an
  external PDF library.
- The terminal UI: `layout`, `keybindings` and `quit`. The chat view lines
  written by `addMessageToChat`, and the status bar of `updateStatus`, are
  also out. That covers the user echo, the "Evaluation: Passed/Failed" and
  "Regenerating response..." lines, and the error line.
- Concurrency: `sendMessage` runs the turn in a goroutine and marshals results
  back with `g.Update`. The model runs the turn to completion inside
  `SendMessage`. Interleavings of several outstanding turns are not modelled.
- The network calls: the model ids, the request construction and the JSON
  schema with strict structured output (ai.go:123-154). Each client is a
  function from request messages to a reply or an error. So the model treats
  a backend as answering the same request the same way each time.
- `json.MarshalIndent` and `json.Unmarshal` are uninterpreted (`marshal`,
  `decode`). Their formats are out, including that an empty Go history
  marshals as `null`.
- `resp.Choices[0]`: each response is taken to yield exactly one reply text.
  The crash on an empty choice list is not modelled.
- Error texts: the `fmt.Errorf` prefixes are represented by the wrapping
  constructors of `Conversation.Error`, not as strings.
- Text.ToLower: lower-cases ASCII letters only, where Go's `strings.ToLower`
  is Unicode-wide. For the keyword test this changes nothing, because no
  non-ASCII character lower-cases to one of the letters of "patent".
- Text.TrimSpace: works on Unicode scalar values. Go's treatment of invalid
  UTF-8 bytes is not modelled.
