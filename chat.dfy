/**
 * One turn of the chat page: the user's prompt is logged, relevant
 * documentation is retrieved, the outbound message list for the language model
 * is assembled (system prompt, the conversation, and the documentation injected
 * just before the last user message), the streamed reply is accumulated, and
 * the reply is logged.
 *
 * The language-model service is a function parameter: given the outbound
 * messages it yields the stream's text fragments (a fragment may be empty or
 * missing) and, when the call raised, the error message.
 */
module Chat {
  import opened Wrappers
  import opened Retrieval

  datatype Role = System | User | Assistant

  datatype Message = Message(role: Role, content: string)

  /** What streaming a completion produced: the fragments received, then possibly an error. */
  datatype Completion = Completion(fragments: seq<Option<string>>, failure: Option<string>)

  /** The number of results `get_relevant_context` is asked for in a chat turn. */
  const TurnK := 3

  /** The text of the context message before the retrieved documentation. */
  const ContextIntro: string := "\nRELEVANT DATABRICKS DOCUMENTATION (use this to provide accurate information):\n\n"

  /** The text of the context message after the retrieved documentation. */
  const ContextOutro: string := "\n\nUse the above documentation to answer questions accurately. The documentation is tagged by domain (MIGRATION, OPTIMIZATION, or COSTING). Reference the appropriate domain when answering.\n"

  /** The system message that carries the retrieved documentation, which it holds unchanged between fixed texts. */
  function ContextMessage(context: string): (m: Message)
    ensures m.role == System
    ensures |m.content| > |context|
    ensures |m.content| == |ContextIntro| + |context| + |ContextOutro|
    ensures m.content[..|ContextIntro|] == ContextIntro
    ensures m.content[|ContextIntro|..|ContextIntro| + |context|] == context
    ensures m.content[|ContextIntro| + |context|..] == ContextOutro
  {
    Message(System, ContextIntro + context + ContextOutro)
  }

  /**
   * The messages sent to the model: the system prompt, then the log without
   * its first entry; when there is context, the last of those is replaced by
   * the context message followed by a user message holding the prompt.
   */
  function Outbound(systemPrompt: string, log: seq<Message>, prompt: string, context: string): seq<Message> {
    var base := [Message(System, systemPrompt)] + (if |log| >= 1 then log[1..] else []);
    if context != "" then base[..|base| - 1] + [ContextMessage(context), Message(User, prompt)]
    else base
  }

  /**
   * When the log starts with the system message and ends with the user's
   * prompt, the outbound list is the system prompt and the rest of the log,
   * with exactly one extra system message, holding the context, right before
   * the final user message when there is context.
   */
  lemma OutboundShape(systemPrompt: string, log: seq<Message>, prompt: string, context: string)
    requires |log| >= 2 && log[|log| - 1] == Message(User, prompt)
    ensures var out := Outbound(systemPrompt, log, prompt, context);
            out[0] == Message(System, systemPrompt)
            && |out| == |log| + (if context != "" then 1 else 0)
            && out[|out| - 1] == log[|log| - 1]
            && out[1..|log| - 1] == log[1..|log| - 1]
            && (context != "" ==> out[|out| - 2] == ContextMessage(context))
  {
    var base := [Message(System, systemPrompt)] + log[1..];
    assert |base| == |log| && base[|base| - 1] == log[|log| - 1];
    assert base[1..|log| - 1] == log[1..|log| - 1];
    if context != "" {
      var out := base[..|base| - 1] + [ContextMessage(context), Message(User, prompt)];
      assert out[1..|log| - 1] == base[1..|log| - 1];
    }
  }

  /** The text of a reply streamed without error: the non-empty fragments in order. */
  function Streamed(fragments: seq<Option<string>>): string {
    if fragments == [] then ""
    else
      var n := |fragments| - 1;
      Streamed(fragments[..n])
      + (if fragments[n].Some? && fragments[n].value != "" then fragments[n].value else "")
  }

  /** Streaming two batches of fragments gives their texts one after the other. */
  lemma {:induction false} StreamedAppend(a: seq<Option<string>>, b: seq<Option<string>>)
    ensures Streamed(a + b) == Streamed(a) + Streamed(b)
    decreases |b|
  {
    if b != [] {
      var n := |b| - 1;
      assert (a + b)[..|a + b| - 1] == a + b[..n];
      assert (a + b)[|a + b| - 1] == b[n];
      StreamedAppend(a, b[..n]);
    } else {
      assert a + b == a;
    }
  }

  /** Missing and empty fragments contribute nothing. */
  lemma {:induction false} StreamedSkipsEmpty(fragments: seq<Option<string>>)
    requires forall i :: 0 <= i < |fragments| ==> fragments[i].None? || fragments[i].value == ""
    ensures Streamed(fragments) == ""
  {
    if fragments != [] {
      StreamedSkipsEmpty(fragments[..|fragments| - 1]);
    }
  }

  /** The logged reply: the streamed text, or "Error: " and the message when the call raised. */
  function ReplyText(c: Completion): (reply: string)
    ensures c.failure.Some? ==> reply == "Error: " + c.failure.value
    ensures c.failure.None? ==> reply == Streamed(c.fragments)
  {
    match c.failure
    case Some(e) => "Error: " + e
    case None => Streamed(c.fragments)
  }

  /** When the call raised, the reply is the error text alone: whatever was streamed before is discarded. */
  lemma ReplyDiscardsPartialText(fragments: seq<Option<string>>, other: seq<Option<string>>, error: string)
    ensures ReplyText(Completion(fragments, Some(error))) == ReplyText(Completion(other, Some(error)))
    ensures ReplyText(Completion(fragments, Some(error)))[..|"Error: "|] == "Error: "
  {
  }

  /** Without an error, each further batch of fragments extends the reply by its own streamed text. */
  lemma ReplyExtends(a: seq<Option<string>>, b: seq<Option<string>>)
    ensures ReplyText(Completion(a + b, None)) == ReplyText(Completion(a, None)) + Streamed(b)
  {
    StreamedAppend(a, b);
  }

  /**
   * The outbound list as the turn builds it: the system prompt, each logged
   * message after the first, and, when there is context, the last message
   * popped and the context and the prompt appended.
   */
  method AssembleOutbound(systemPrompt: string, messages: seq<Message>, prompt: string, relevantContext: string)
    returns (outbound: seq<Message>)
    ensures outbound == Outbound(systemPrompt, messages, prompt, relevantContext)
  {
    outbound := [Message(System, systemPrompt)];
    var rest := if |messages| >= 1 then messages[1..] else [];
    var i := 0;
    while i < |rest|
      invariant 0 <= i <= |rest|
      invariant outbound == [Message(System, systemPrompt)] + rest[..i]
    {
      outbound := outbound + [rest[i]];
      i := i + 1;
    }
    assert rest[..i] == rest;
    if relevantContext != "" {
      outbound := outbound[..|outbound| - 1];
      outbound := outbound + [ContextMessage(relevantContext)];
      outbound := outbound + [Message(User, prompt)];
    }
  }

  /** The streaming loop and its error handler: the reply text that is displayed and logged. */
  method StreamReply(completion: Completion) returns (fullResponse: string)
    ensures fullResponse == ReplyText(completion)
  {
    fullResponse := "";
    var j := 0;
    while j < |completion.fragments|
      invariant 0 <= j <= |completion.fragments|
      invariant fullResponse == Streamed(completion.fragments[..j])
    {
      var fragment := completion.fragments[j];
      assert completion.fragments[..j + 1][..j] == completion.fragments[..j];
      if fragment.Some? && fragment.value != "" {
        fullResponse := fullResponse + fragment.value;
      }
      j := j + 1;
    }
    assert completion.fragments[..j] == completion.fragments;
    if completion.failure.Some? {
      fullResponse := "Error: " + completion.failure.value;
    }
  }

  /**
   * One chat turn. `log` is the persisted conversation; the turn returns the
   * messages sent to the model and the new log, which gains the user's
   * prompt and then the assistant's reply.
   */
  method ChatTurn(kb: KnowledgeBase, search: SearchFn, systemPrompt: string, log: seq<Message>,
                  prompt: string, service: seq<Message> -> Completion)
    returns (outbound: seq<Message>, newLog: seq<Message>)
    ensures var context := Context(kb.State(), prompt, TurnK, None, search);
            outbound == Outbound(systemPrompt, log + [Message(User, prompt)], prompt, context)
    ensures newLog == log + [Message(User, prompt), Message(Assistant, ReplyText(service(outbound)))]
  {
    var messages := log + [Message(User, prompt)];
    var relevantContext := kb.GetRelevantContext(prompt, TurnK, None, search);
    outbound := AssembleOutbound(systemPrompt, messages, prompt, relevantContext);
    var fullResponse := StreamReply(service(outbound));
    newLog := messages + [Message(Assistant, fullResponse)];
  }
}
