/** The three prompt templates of the chat agent (ai.go:26-59): the persona
    system prompt, the evaluator system prompt, and the evaluator's per-turn
    user prompt. All three are plain string concatenation. */
module Prompts {
  import opened Text
  import opened Conversation

  const SummaryHeader := "## Summary:\n"
  const ProfileHeader := "## LinkedIn Profile:\n"

  /** The opening of the persona prompt; the name is substituted five times. */
  function PersonaIntro(name: string): string {
    "You are acting as " + name + ". You are answering questions on " + name + "'s website, "
    + "particularly questions related to " + name + "'s career, background, skills and experience. "
    + "Your responsibility is to represent " + name + " for interactions on the website as faithfully as possible. "
    + "You are given a summary of " + name + "'s background and LinkedIn profile which you can use to answer questions. "
    + "Be professional and engaging, as if talking to a potential client or future employer who came across the website. "
    + "If you don't know the answer, say so."
  }

  function PersonaClosing(name: string): string {
    "With this context, please chat with the user, always staying in character as " + name + "."
  }

  /** The opening of the evaluator prompt; the name is substituted three times. */
  function EvaluatorIntro(name: string): string {
    "You are an evaluator that decides whether a response to a question is acceptable. "
    + "You are provided with a conversation between a User and an Agent. Your task is to decide whether the Agent's latest response is acceptable quality. "
    + "The Agent is playing the role of " + name + " and is representing " + name + " on their website. "
    + "The Agent has been instructed to be professional and engaging, as if talking to a potential client or future employer who came across the website. "
    + "The Agent has been provided with context on " + name + " in the form of their summary and LinkedIn details. Here's the information:"
  }

  const EvaluatorClosing :=
    "With this context, please evaluate the latest response, replying with whether the response is acceptable and your feedback."

  /** The background block both system prompts share (ai.go:34, ai.go:47). */
  function ContextSection(summary: string, linkedin: string): string {
    "\n\n" + SummaryHeader + summary + "\n\n" + ProfileHeader + linkedin + "\n\n"
  }

  /** From index `at` on, `prompt` holds the summary under its header, then the
      profile text under its header, each followed by a blank line. */
  predicate PlacesContext(prompt: string, at: int, summary: string, linkedin: string) {
    && OccursAt(prompt, SummaryHeader + summary + "\n\n", at)
    && OccursAt(prompt, ProfileHeader + linkedin + "\n\n", at + |SummaryHeader| + |summary| + 2)
  }

  /** Length of the context block, headers and separators included. */
  function ContextLength(summary: string, linkedin: string): nat {
    |SummaryHeader| + |summary| + |ProfileHeader| + |linkedin| + 6
  }

  lemma ContextSectionLayout(prefix: string, summary: string, linkedin: string, suffix: string)
    ensures var p := prefix + ContextSection(summary, linkedin) + suffix;
      && PlacesContext(p, |prefix| + 2, summary, linkedin)
      && |p| == |prefix| + ContextLength(summary, linkedin) + |suffix|
      && IsPrefix(prefix + "\n\n", p)
      && IsSuffix(suffix, p)
  {
  }

  /** buildSystemPrompt: the persona opening, a blank line, the summary and the
      profile under their headers, and the fixed closing instruction naming
      the persona. The three parts are contiguous and make up the whole prompt. */
  function BuildSystemPrompt(name: string, summary: string, linkedin: string): (r: string)
    ensures IsPrefix(PersonaIntro(name) + "\n\n", r)
    ensures PlacesContext(r, |PersonaIntro(name)| + 2, summary, linkedin)
    ensures IsSuffix(PersonaClosing(name), r)
    ensures |r| == |PersonaIntro(name)| + ContextLength(summary, linkedin) + |PersonaClosing(name)|
  {
    ContextSectionLayout(PersonaIntro(name), summary, linkedin, PersonaClosing(name));
    PersonaIntro(name) + ContextSection(summary, linkedin) + PersonaClosing(name)
  }

  /** buildEvaluatorPrompt: the evaluator opening, the same context block as the
      persona prompt, and the fixed request to evaluate the latest response. */
  function BuildEvaluatorPrompt(name: string, summary: string, linkedin: string): (r: string)
    ensures IsPrefix(EvaluatorIntro(name) + "\n\n", r)
    ensures PlacesContext(r, |EvaluatorIntro(name)| + 2, summary, linkedin)
    ensures IsSuffix(EvaluatorClosing, r)
    ensures |r| == |EvaluatorIntro(name)| + ContextLength(summary, linkedin) + |EvaluatorClosing|
  {
    ContextSectionLayout(EvaluatorIntro(name), summary, linkedin, EvaluatorClosing);
    EvaluatorIntro(name) + ContextSection(summary, linkedin) + EvaluatorClosing
  }

  const ConversationHeader := "Here's the conversation between the User and the Agent: \n\n"
  const MessageHeader := "Here's the latest message from the User: \n\n"
  const ReplyHeader := "Here's the latest response from the Agent: \n\n"
  const EvaluationRequest := "Please evaluate the response, replying with whether it is acceptable and your feedback."

  /** Where the user message starts in the evaluator user prompt. */
  function MessageOffset(historyText: string): nat {
    |ConversationHeader| + |historyText| + 2 + |MessageHeader|
  }

  /** Where the agent reply starts in the evaluator user prompt. */
  function ReplyOffset(historyText: string, message: string): nat {
    MessageOffset(historyText) + |message| + 2 + |ReplyHeader|
  }

  /** buildEvaluatorUserPrompt: the serialised history, then the user's latest
      message, then the agent's draft reply, each under its own heading and in
      that order, and finally the fixed evaluation request. `marshal` stands
      for `json.MarshalIndent`, whose output the model does not interpret. */
  function BuildEvaluatorUserPrompt(marshal: seq<ChatMessage> -> string, reply: string, message: string,
                                    history: seq<ChatMessage>): (r: string)
    ensures IsPrefix(ConversationHeader + marshal(history) + "\n\n", r)
    ensures OccursAt(r, MessageHeader + message + "\n\n", MessageOffset(marshal(history)) - |MessageHeader|)
    ensures OccursAt(r, ReplyHeader + reply + "\n\n", ReplyOffset(marshal(history), message) - |ReplyHeader|)
    ensures MessageOffset(marshal(history)) + |message| <= ReplyOffset(marshal(history), message)
    ensures IsSuffix(EvaluationRequest, r)
    ensures |r| == ReplyOffset(marshal(history), message) + |reply| + 2 + |EvaluationRequest|
  {
    var historyText := marshal(history);
    var a := ConversationHeader + historyText + "\n\n";
    var b := MessageHeader + message + "\n\n";
    var c := ReplyHeader + reply + "\n\n";
    var r := a + b + c + EvaluationRequest;
    assert r[|a|..|a| + |b|] == b;
    assert r[|a| + |b|..|a| + |b| + |c|] == c;
    r
  }
}
