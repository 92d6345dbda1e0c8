# Conversation context of the Alexa GPT skill

This project models the conversation-context logic of the Alexa GPT skill's
Lambda function (`alexa-gpt-main/lambda/lambda_function.py`) and proves
properties about it in Dafny. It covers three parts:

- **Context compression** (`compress_context`), in `context_compression.dfy`, module
  `ContextCompression`. A list of `{role, content}` messages becomes at most
  two entries. The first is one user entry that joins every user content with
  single spaces. The second is one assistant entry that does the same for the
  assistant contents. Messages with any other role are dropped.
- **Prompt assembly and the error path** (`generate_gpt_response`), in
  `completion_bridge.dfy`, module `CompletionBridge`. The prompt is the fixed
  preamble, then an optional `User:` history line, then an optional `Assistant:`
  history line, and finally `User: <query>`. Every exception becomes the triple
  `("Error generating response: " + message, None, None)`. The remote
  completion service is a function parameter `complete: string -> Completion`.
  For each prompt it returns either the trimmed text or a failure carrying the
  exception's message.
- **Role switching and history update** (`handle_user_query`), in
  `role_switch.dfy`, module `RoleSwitch`. The main loop keeps the two histories
  as module-level state. Here they become the fields of a `Conversation` object.
  `HandleUserQuery` updates those fields and states their exact new value.

Python lists of strings are modelled as `seq<string>`. A missing or present
Python value is modelled as `Option`. An exception that the function catches
is modelled as its error reply.

A missing context is an input the code is meant to handle. The signature gives
`context` the default `None` (line 129). The first `GptQueryIntentHandler`
calls `generate_gpt_response(query)` with no context at all (line 43). The
second one passes `session_attributes.get("context")`, which is `None` on the
first query of a session (lines 63-65). Yet with a `None` or empty context the
function never sends a prompt and always returns the error text (lines
131-134). The model follows the code as written (`GenerateResponse`), and the
discrepancy is recorded under "## Findings".

## Model

| member | source | states |
|---|---|---|
| ContextCompression.ContentsWithRole | alexa-gpt-main/lambda/lambda_function.py:118-119 | the selected contents are exactly the contents of the messages with the given role: every selected content comes from such a message, and every such message's content is selected; the result is never longer than the input |
| ContextCompression.Join | alexa-gpt-main/lambda/lambda_function.py:122 | `' '.join`: no parts give the empty string and a single part is returned as it is |
| ContextCompression.JoinEnds | alexa-gpt-main/lambda/lambda_function.py:122 | the joined text begins with the first part and ends with the last part |
| ContextCompression.ContentsWithRoleAppend | alexa-gpt-main/lambda/lambda_function.py:118-119 | selection by role commutes with concatenation, so the contents keep their input order |
| ContextCompression.ContentsWithRoleNonEmpty | alexa-gpt-main/lambda/lambda_function.py:121-124 | a role's content list is non-empty exactly when some message has that role |
| ContextCompression.ContentsWithRoleSingle | alexa-gpt-main/lambda/lambda_function.py:118-119 | a single message contributes its content exactly when its role matches |
| ContextCompression.Entry | alexa-gpt-main/lambda/lambda_function.py:121-125 | a role contributes at most one entry, present exactly when some message has that role, carrying that role and the join of its contents |
| ContextCompression.JoinAppend | alexa-gpt-main/lambda/lambda_function.py:122 | `' '.join` of two non-empty lists puts exactly one space between the two joined parts |
| ContextCompression.JoinIsLossy | alexa-gpt-main/lambda/lambda_function.py:122 | joining with spaces cannot tell a space inside a message from the separator between two messages |
| ContextCompression.Compress | alexa-gpt-main/lambda/lambda_function.py:116-127 | at most two entries, each with role user or assistant; the first entry is the user entry exactly when some input message has role user, and the last entry is the assistant entry exactly when some input message has role assistant; with two entries the user entry comes first; each entry's content is the join of that role's contents |
| ContextCompression.CompressedContents | alexa-gpt-main/lambda/lambda_function.py:116-127 | selecting a role from a compressed context yields the single joined content of that role in the original, or nothing when the role is absent |
| ContextCompression.CompressIdempotent | alexa-gpt-main/lambda/lambda_function.py:116-127 | compressing an already compressed context returns it unchanged |
| ContextCompression.CompressIgnoresOtherRoles | alexa-gpt-main/lambda/lambda_function.py:118-119 | inserting a message whose role is neither user nor assistant, at any position, does not change the compressed context |
| ContextCompression.CompressForgetsInterleaving | alexa-gpt-main/lambda/lambda_function.py:118-125 | swapping two neighbouring messages with different roles does not change the compressed context, so compression loses how the speakers were interleaved |
| ContextCompression.CompressTwoUserTurns | alexa-gpt-main/lambda/lambda_function.py:116-127 | the user turns "hi" and "how are you" plus the assistant turn "hello" compress to the user entry "hi how are you" followed by the assistant entry "hello" |
| CompletionBridge.Truthy | alexa-gpt-main/lambda/lambda_function.py:131 | the test `if context` fails exactly for None and for the empty list |
| CompletionBridge.HistoryLine | alexa-gpt-main/lambda/lambda_function.py:138-141 | a history line is empty exactly when there is nothing to join; for a single part it is the heading, the part and a newline |
| CompletionBridge.ErrorReply | alexa-gpt-main/lambda/lambda_function.py:155-157 | the error reply starts with "Error generating response: ", continues with the exception's message, and carries None for both lists |
| CompletionBridge.AssemblePrompt | alexa-gpt-main/lambda/lambda_function.py:137-142 | the prompt starts with the preamble and ends with "User: " followed by the query; with no history it is exactly the preamble followed by that line |
| CompletionBridge.ContextPrompt | alexa-gpt-main/lambda/lambda_function.py:131-142 | the prompt built from a context starts with the preamble and ends with "User: " followed by the query; a context with neither user nor assistant messages gives exactly the preamble followed by that line |
| CompletionBridge.PromptShape | alexa-gpt-main/lambda/lambda_function.py:131-142 | for any context, the prompt is the preamble, then a user line joining every user content in order, then an assistant line joining every assistant content in order, then the query line; each history line is present exactly when its role occurs in the context |
| CompletionBridge.GenerateResponse | alexa-gpt-main/lambda/lambda_function.py:129-157 | the two returned lists are both None or both present; when they are None the response starts with the error prefix; when present, each holds at most one entry |
| CompletionBridge.NoContextAlwaysErrors | alexa-gpt-main/lambda/lambda_function.py:131-134 | with a None or empty context the response is "Error generating response: " followed by "'NoneType' object is not iterable", both lists are None, and the result does not depend on the completion service |
| CompletionBridge.ReplyForContext | alexa-gpt-main/lambda/lambda_function.py:131-157 | with a non-empty context the service receives the assembled prompt; a completed text is returned with the joined user and assistant lists, and a failure yields the error reply for its message |
| CompletionBridge.ErrorPathIff | alexa-gpt-main/lambda/lambda_function.py:129-157 | the error triple is returned exactly when the context is None or empty, or when the completion fails |
| CompletionBridge.FirstQueryAsWritten | alexa-gpt-main/lambda/lambda_function.py:129-134 | as written, the query "What is 2+2?" with no context yields "Error generating response: " followed by "'NoneType' object is not iterable", with None for both lists, even when the service always answers |
| CompletionBridge.GenerateResponseFixed | alexa-gpt-main/lambda/lambda_function.py:129-157 | the corrected bridge agrees with the code as written on every present, non-empty context |
| CompletionBridge.FirstQueryFixed | alexa-gpt-main/lambda/lambda_function.py:129-157 | the corrected bridge, given no context, sends exactly the preamble followed by "User: " and the query, and returns the service's text or the error for its failure |
| RoleSwitch.Lower | alexa-gpt-main/lambda/lambda_function.py:162 | lower-casing keeps the length and maps every character to its lower-case form |
| RoleSwitch.LowerChar | alexa-gpt-main/lambda/lambda_function.py:162 | an upper-case ASCII letter becomes its lower-case letter, every other character is unchanged, and no result is an upper-case ASCII letter |
| RoleSwitch.Contains | alexa-gpt-main/lambda/lambda_function.py:162 | `phrase in text` holds whenever the text starts with the phrase, and only when the phrase is no longer than the text |
| RoleSwitch.ContainsIff | alexa-gpt-main/lambda/lambda_function.py:162 | the substring test `phrase in text` holds exactly when the phrase occurs at some position of the text |
| RoleSwitch.CommandAnywhere | alexa-gpt-main/lambda/lambda_function.py:162-169 | a command written in any letter case, anywhere in the query, is recognised by the case-insensitive test |
| RoleSwitch.Tagged | alexa-gpt-main/lambda/lambda_function.py:172-174 | tagging a list of contents with a role gives one message per content, all with that role, whose selection gives back the contents |
| RoleSwitch.HistoryContext | alexa-gpt-main/lambda/lambda_function.py:172-174 | the context built from the two histories selects back exactly the user history and exactly the assistant history |
| RoleSwitch.TurnReply | alexa-gpt-main/lambda/lambda_function.py:170-175 | an ordinary turn always reaches the completion service: its prompt is the preamble, the user line with the whole user history including the new query, the assistant line when there is assistant history, then the query; the response is the service's text or the error text for its failure |
| RoleSwitch.QueryRepeatedInPrompt | alexa-gpt-main/lambda/lambda_function.py:171-174 | because the query is appended before the prompt is built, the turn's prompt is the preamble, then a user line that ends with the new query (after the earlier user contents and a space, if any), then the assistant line, then the closing line "User: " followed by the query again |
| RoleSwitch.TurnPromptEnds | alexa-gpt-main/lambda/lambda_function.py:142 | the prompt of an ordinary turn ends with "User: " followed by the query |
| RoleSwitch.Conversation.constructor | alexa-gpt-main/lambda/lambda_function.py:182-183 | a conversation starts with empty, balanced histories |
| RoleSwitch.Conversation.HandleUserQuery | alexa-gpt-main/lambda/lambda_function.py:161-177 | a query whose lower-case form contains "change role to assistant" empties both histories and replies "You are now the helpful assistant.", and this check comes first; otherwise "change role to user" empties both histories and replies "You are now the user."; any other query appends itself to the user history and exactly the returned response to the assistant history, leaving earlier entries unchanged; the response is the bridge's reply to the two histories as a context, and the corrected bridge gives the same reply; balanced histories stay balanced |

## Left out

- The ASK SDK handler classes, their `can_handle` predicates, the response builder, the session attributes and the skill builder registration (lines 16-113, 193-199). Dispatch happens inside the voice SDK, which is not part of this model, and what is left is fixed strings. This also covers the duplicate `GptQueryIntentHandler` and the way the handler passes the whole returned triple to `speak` and into the session context.
- The remote call `openai.Completion.create` and the `.strip()` of its text (lines 145-154). They are the parameter `complete`, which returns the trimmed text or a failure with the exception's message.
- The console loop with `input` and `print` (lines 182-190). It is I/O. Each of its iterations is one call of `Conversation.HandleUserQuery`.
- Logging (lines 13-14, 87, 156).
- `answer.py`: an HTTP POST, a fixed sleep and console I/O, with no logic.
- Message records with a missing key, and contents that are not strings. Here a `Message` always has two strings. In the source, a missing `role` key always raises a KeyError. A missing `content` key or a non-string content raises only when the message's role is user or assistant: a KeyError from the comprehension, or a TypeError from `' '.join`.
- A `None` query (an empty slot) reaching the prompt assembly. Every query here is a string.
- RoleSwitch.Lower, RoleSwitch.LowerChar: lower-case ASCII letters only and leave every other character unchanged. Python's `str.lower` also folds non-ASCII letters (`'É'` becomes `'é'`) and can lengthen the string. This cannot change either role-switch test. Only two non-ASCII characters lower-case to ASCII. U+212A KELVIN SIGN becomes `k`, which neither phrase contains. U+0130 becomes `i` followed by U+0307, and U+0307 cannot be matched: in both phrases every `i` is followed by `s` or `t`, never by U+0307.
- RoleSwitch.Conversation.HandleUserQuery: treats the two histories as the conversation's own state. It does not model list identity. On an ordinary turn the source appends to the caller's lists in place. On a role switch it returns fresh lists and leaves the caller's lists untouched. The console loop rebinds its variables to the returned lists either way.

## Findings

| source | as written | input that shows it | evidently intended | confidence | as-written member | corrected member |
|---|---|---|---|---|---|---|
| alexa-gpt-main/lambda/lambda_function.py:131-133 | a None or empty context sets the compressed context to None, and the comprehension on the next line iterates over None and raises, so the reply is always "Error generating response: 'NoneType' object is not iterable" | query "What is 2+2?" with context None, as on the first query of every session (line 63 finds no context yet) | the prompt "You are a helpful assistant.\nUser: What is 2+2?" is sent and the completion's text returned | high; not executed | CompletionBridge.FirstQueryAsWritten | CompletionBridge.FirstQueryFixed |

`Conversation.HandleUserQuery` calls `GenerateResponse` as written, as the
source does (line 172). Its contract also states that the corrected
`GenerateResponseFixed` gives the same reply. The two are equal on the context
the turn builds, because that context always holds the new query.
