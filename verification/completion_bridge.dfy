/** Building the completion prompt from a query and an optional context, and
    turning every failure into an error reply. The remote completion service
    is a function parameter: it maps a prompt to a completed text (already
    trimmed) or to a failure with its message. */
module CompletionBridge {
  import opened ContextCompression

  datatype Option<T> = None | Some(value: T)

  /** What the completion service does with one prompt. */
  datatype Completion = Completed(text: string) | Failed(reason: string)

  /** The triple `generate_gpt_response` returns: the response text and the
      user and assistant lists taken from the compressed context, both
      `None` on the error path. */
  datatype Reply = Reply(response: string, userMessages: Option<seq<string>>, assistantMessages: Option<seq<string>>)

  const Preamble: string := "You are a helpful assistant.\n"
  const ErrorPrefix: string := "Error generating response: "
  /** The message of the exception raised by iterating over `None`. */
  const NoneNotIterable: string := "'NoneType' object is not iterable"

  /** `s` ends with `t`. */
  predicate EndsWith(s: string, t: string)
  {
    |t| <= |s| && s[|s| - |t|..] == t
  }

  /** Python truthiness of the optional context: present and non-empty. */
  predicate Truthy(context: Option<seq<Message>>): (b: bool)
    ensures !b <==> context == None || context == Some([])
  {
    context.Some? && context.value != []
  }

  /** The reply of the exception handler. */
  function ErrorReply(reason: string): (r: Reply)
    ensures ErrorPrefix <= r.response
    ensures r.response[|ErrorPrefix|..] == reason
    ensures r.userMessages == None && r.assistantMessages == None
  {
    Reply(ErrorPrefix + reason, None, None)
  }

  /** The optional history line for `parts` under `heading`. */
  function HistoryLine(heading: string, parts: seq<string>): (r: string)
    ensures r == "" <==> parts == []
    ensures |parts| == 1 ==> r == heading + parts[0] + "\n"
  {
    if parts != [] then heading + Join(parts) + "\n" else ""
  }

  /** The prompt text: the preamble, an optional user history line, an
      optional assistant history line, then the current query. */
  function AssemblePrompt(query: string, users: seq<string>, assistants: seq<string>): (prompt: string)
    ensures Preamble <= prompt
    ensures EndsWith(prompt, "User: " + query)
    ensures users == [] && assistants == [] ==> prompt == Preamble + "User: " + query
  {
    var prompt := Preamble + HistoryLine("User: ", users) + HistoryLine("Assistant: ", assistants) + "User: " + query;
    assert prompt == (Preamble + HistoryLine("User: ", users) + HistoryLine("Assistant: ", assistants)) + ("User: " + query);
    prompt
  }

  /** The prompt built for a context that has been compressed: the lists of
      user and assistant contents are taken again from the compressed
      context and joined once more. */
  function ContextPrompt(query: string, context: seq<Message>): (prompt: string)
    ensures Preamble <= prompt
    ensures EndsWith(prompt, "User: " + query)
    ensures !HasRole(context, User) && !HasRole(context, Assistant) ==> prompt == Preamble + "User: " + query
  {
    var compressed := Compress(context);
    CompressedContents(context, User);
    CompressedContents(context, Assistant);
    AssemblePrompt(query, ContentsWithRole(compressed, User), ContentsWithRole(compressed, Assistant))
  }

  /** The joined contents of `role` in `context`, as a list of at most one
      element. */
  function Joined(context: seq<Message>, role: string): (r: seq<string>)
    ensures |r| <= 1
  {
    var contents := ContentsWithRole(context, role);
    if contents != [] then [Join(contents)] else []
  }

  /** The prompt in terms of the original context: one user line carrying
      every user content in order, then one assistant line carrying every
      assistant content, each present only when that role occurs. */
  lemma PromptShape(query: string, context: seq<Message>)
    ensures ContextPrompt(query, context)
         == Preamble + HistoryLine("User: ", Joined(context, User))
                     + HistoryLine("Assistant: ", Joined(context, Assistant)) + "User: " + query
    ensures HistoryLine("User: ", Joined(context, User)) != [] <==> HasRole(context, User)
    ensures HistoryLine("Assistant: ", Joined(context, Assistant)) != [] <==> HasRole(context, Assistant)
  {
    CompressedContents(context, User);
    CompressedContents(context, Assistant);
    ContentsWithRoleNonEmpty(context, User);
    ContentsWithRoleNonEmpty(context, Assistant);
  }

  /** `generate_gpt_response`, as written: a falsy context leaves the
      compressed context `None`, and iterating over it raises; the
      completion's failure is caught the same way. */
  function GenerateResponse(query: string, context: Option<seq<Message>>, complete: string -> Completion): (r: Reply)
    ensures r.userMessages.None? <==> r.assistantMessages.None?
    ensures r.userMessages.None? ==> ErrorPrefix <= r.response
    ensures r.userMessages.Some? ==> |r.userMessages.value| <= 1 && |r.assistantMessages.value| <= 1
  {
    if !Truthy(context) then ErrorReply(NoneNotIterable)
    else
      var compressed := Compress(context.value);
      CompressedContents(context.value, User);
      CompressedContents(context.value, Assistant);
      var users := ContentsWithRole(compressed, User);
      var assistants := ContentsWithRole(compressed, Assistant);
      match complete(AssemblePrompt(query, users, assistants))
      case Failed(reason) => ErrorReply(reason)
      case Completed(text) => Reply(text, Some(users), Some(assistants))
  }

  /** With no context, or an empty one, the reply is always the error for
      iterating over `None`, whatever the completion service would do. */
  lemma NoContextAlwaysErrors(query: string, context: Option<seq<Message>>, complete: string -> Completion, other: string -> Completion)
    requires !Truthy(context)
    ensures GenerateResponse(query, context, complete).response == ErrorPrefix + NoneNotIterable
    ensures GenerateResponse(query, context, complete).userMessages == None
    ensures GenerateResponse(query, context, complete) == GenerateResponse(query, context, other)
  {
  }

  /** A non-empty context sends the prompt of `PromptShape` to the service,
      and the reply is its text or the error for its failure. */
  lemma ReplyForContext(query: string, context: seq<Message>, complete: string -> Completion)
    requires context != []
    ensures var r := GenerateResponse(query, Some(context), complete);
      match complete(ContextPrompt(query, context))
      case Completed(text) =>
        r == Reply(text, Some(Joined(context, User)), Some(Joined(context, Assistant)))
      case Failed(reason) =>
        r == ErrorReply(reason)
  {
    CompressedContents(context, User);
    CompressedContents(context, Assistant);
    ContentsWithRoleNonEmpty(context, User);
    ContentsWithRoleNonEmpty(context, Assistant);
  }

  /** The error path is taken exactly when the context is falsy or the
      completion fails. */
  lemma ErrorPathIff(query: string, context: Option<seq<Message>>, complete: string -> Completion)
    ensures GenerateResponse(query, context, complete).userMessages.None?
        <==> (!Truthy(context) || complete(ContextPrompt(query, context.value)).Failed?)
  {
  }

  /** The query of a prompt-only exchange, sent with no prior context. */
  const SampleQuery: string := "What is 2+2?"

  /** As written, the first query of a session (no context yet) is never
      sent: even a service that always answers yields the error text. */
  lemma FirstQueryAsWritten(complete: string -> Completion)
    requires forall p :: complete(p).Completed?
    ensures GenerateResponse(SampleQuery, None, complete) == Reply(ErrorPrefix + NoneNotIterable, None, None)
  {
  }

  /** The evidently intended behaviour: a missing or empty context adds no
      history lines, and the prompt is still sent. */
  function GenerateResponseFixed(query: string, context: Option<seq<Message>>, complete: string -> Completion): (r: Reply)
    ensures Truthy(context) ==> r == GenerateResponse(query, context, complete)
  {
    var prior := if context.Some? then context.value else [];
    var compressed := Compress(prior);
    var users := ContentsWithRole(compressed, User);
    var assistants := ContentsWithRole(compressed, Assistant);
    match complete(AssemblePrompt(query, users, assistants))
    case Failed(reason) => ErrorReply(reason)
    case Completed(text) => Reply(text, Some(users), Some(assistants))
  }

  /** Corrected: with no context the prompt is the preamble followed by the
      query, and the reply is the service's text for it. */
  lemma FirstQueryFixed(query: string, context: Option<seq<Message>>, complete: string -> Completion)
    requires !Truthy(context)
    ensures var r := GenerateResponseFixed(query, context, complete);
      match complete(Preamble + "User: " + query)
      case Completed(text) => r == Reply(text, Some([]), Some([]))
      case Failed(reason) => r == ErrorReply(reason)
  {
  }
}
