/** One turn of the console conversation: a role-switch command clears both
    histories, any other query is added to the user history, answered from
    the whole history, and its answer added to the assistant history. */
module RoleSwitch {
  import opened ContextCompression
  import opened CompletionBridge

  const SwitchToAssistant: string := "change role to assistant"
  const SwitchToUser: string := "change role to user"
  const AssistantRoleReply: string := "You are now the helpful assistant."
  const UserRoleReply: string := "You are now the user."

  /** Lower-casing of one character (ASCII letters only). */
  function LowerChar(c: char): (r: char)
    ensures !('A' <= r <= 'Z')
    ensures 'A' <= c <= 'Z' ==> 'a' <= r <= 'z' && r as int - c as int == 'a' as int - 'A' as int
    ensures !('A' <= c <= 'Z') ==> r == c
  {
    if 'A' <= c <= 'Z' then (c as int + 32) as char else c
  }

  /** `s.lower()`, character by character. */
  function Lower(s: string): (r: string)
    ensures |r| == |s|
    ensures forall i :: 0 <= i < |s| ==> r[i] == LowerChar(s[i])
  {
    if s == [] then [] else [LowerChar(s[0])] + Lower(s[1..])
  }

  /** `t in s`: `t` is a substring of `s`. */
  function Contains(s: string, t: string): (r: bool)
    ensures t <= s ==> r
    ensures r ==> |t| <= |s|
    decreases |s|
  {
    t <= s || (s != [] && Contains(s[1..], t))
  }

  /** `t` occurs in `s` starting at index `i`. */
  ghost predicate OccursAt(s: string, t: string, i: nat)
  {
    i + |t| <= |s| && s[i..i + |t|] == t
  }

  /** The substring search finds `t` exactly when it occurs somewhere. */
  lemma {:induction false} ContainsIff(s: string, t: string)
    ensures Contains(s, t) <==> exists i: nat :: OccursAt(s, t, i)
    decreases |s|
  {
    if Contains(s, t) {
      if t <= s {
        assert OccursAt(s, t, 0);
      } else {
        ContainsIff(s[1..], t);
        var i: nat :| OccursAt(s[1..], t, i);
        assert s[1..][i..i + |t|] == s[i + 1..i + 1 + |t|];
        assert OccursAt(s, t, i + 1);
      }
    }
    if exists i: nat :: OccursAt(s, t, i) {
      var i: nat :| OccursAt(s, t, i);
      if i == 0 {
        assert s[..|t|] == t;
      } else {
        ContainsIff(s[1..], t);
        assert s[1..][i - 1..i - 1 + |t|] == s[i..i + |t|];
        assert OccursAt(s[1..], t, i - 1);
      }
    }
  }

  /** The query asks for a role switch. */
  predicate IsRoleSwitch(query: string)
  {
    Contains(Lower(query), SwitchToAssistant) || Contains(Lower(query), SwitchToUser)
  }

  /** A command in any letter case, anywhere in the query, is recognised. */
  lemma CommandAnywhere(before: string, command: string, after: string, phrase: string)
    requires Lower(command) == phrase
    ensures Contains(Lower(before + command + after), phrase)
  {
    var s := Lower(before + command + after);
    assert s == Lower(before) + phrase + Lower(after);
    assert s[|before|..|before| + |phrase|] == phrase;
    assert OccursAt(s, phrase, |before|);
    ContainsIff(s, phrase);
  }

  /** The messages `{role, content}` for each of `contents`, in order. */
  function Tagged(role: string, contents: seq<string>): (c: seq<Message>)
    ensures |c| == |contents|
    ensures forall m :: m in c ==> m.role == role
    ensures ContentsWithRole(c, role) == contents
  {
    if contents == [] then []
    else
      var c := [Message(role, contents[0])] + Tagged(role, contents[1..]);
      assert c[1..] == Tagged(role, contents[1..]);
      c
  }

  /** A context whose messages all carry `role` has no contents for any
      other role. */
  lemma OnlyRole(c: seq<Message>, role: string, other: string)
    requires forall m :: m in c ==> m.role == role
    requires other != role
    ensures ContentsWithRole(c, other) == []
  {
  }

  /** The context handed to the completion step: every user message, then
      every assistant message. */
  function HistoryContext(users: seq<string>, assistants: seq<string>): (c: seq<Message>)
    ensures |c| == |users| + |assistants|
    ensures ContentsWithRole(c, User) == users
    ensures ContentsWithRole(c, Assistant) == assistants
  {
    var u, a := Tagged(User, users), Tagged(Assistant, assistants);
    ContentsWithRoleAppend(u, a, User);
    ContentsWithRoleAppend(u, a, Assistant);
    OnlyRole(a, Assistant, User);
    OnlyRole(u, User, Assistant);
    u + a
  }

  /** The prompt of an ordinary turn, written out: the user line joins the
      whole user history including the new query, the assistant line the
      whole assistant history, and the query closes the prompt. */
  function TurnPrompt(query: string, users: seq<string>, assistants: seq<string>): string
  {
    Preamble + "User: " + Join(users + [query]) + "\n"
      + HistoryLine("Assistant: ", assistants) + "User: " + query
  }

  /** The answer of an ordinary turn: the service's text, or the error
      string when the service fails. */
  function TurnResponse(query: string, users: seq<string>, assistants: seq<string>, complete: string -> Completion): string
  {
    match complete(TurnPrompt(query, users, assistants))
    case Completed(text) => text
    case Failed(reason) => ErrorPrefix + reason
  }

  /** The joined history lists of an ordinary turn's context. */
  lemma TurnJoined(query: string, users: seq<string>, assistants: seq<string>)
    ensures var context := HistoryContext(users + [query], assistants);
      && context != []
      && Joined(context, User) == [Join(users + [query])]
      && Joined(context, Assistant) == if assistants != [] then [Join(assistants)] else []
  {
  }

  /** An ordinary turn always reaches the completion service: its context
      holds at least the new query, so the reply is never the error for a
      missing context, and its prompt is `TurnPrompt`. */
  lemma TurnReply(query: string, users: seq<string>, assistants: seq<string>, complete: string -> Completion)
    ensures GenerateResponse(query, Some(HistoryContext(users + [query], assistants)), complete).response
         == TurnResponse(query, users, assistants, complete)
  {
    var context := HistoryContext(users + [query], assistants);
    TurnJoined(query, users, assistants);
    ReplyForContext(query, context, complete);
    PromptShape(query, context);
    var joinedUsers := Join(users + [query]);
    var userLine := HistoryLine("User: ", Joined(context, User));
    var assistantLine := HistoryLine("Assistant: ", Joined(context, Assistant));
    assert userLine == "User: " + joinedUsers + "\n";
    assert assistantLine == HistoryLine("Assistant: ", assistants);
    calc {
      ContextPrompt(query, context);
      Preamble + userLine + assistantLine + "User: " + query;
      { assert Preamble + ("User: " + joinedUsers + "\n") == Preamble + "User: " + joinedUsers + "\n"; }
      TurnPrompt(query, users, assistants);
    }
  }

  /** The new query is sent twice: the user history line ends with it, and
      the closing line is the query again. */
  lemma QueryRepeatedInPrompt(query: string, users: seq<string>, assistants: seq<string>)
    ensures TurnPrompt(query, users, assistants)
         == Preamble + "User: " + (if users == [] then query else Join(users) + " " + query) + "\n"
            + HistoryLine("Assistant: ", assistants) + "User: " + query
    ensures EndsWith(TurnPrompt(query, users, assistants), "User: " + query)
  {
    if users != [] {
      JoinAppend(users, [query]);
    }
    TurnPromptEnds(query, users, assistants);
  }

  /** The prompt of an ordinary turn closes with the query line. */
  lemma TurnPromptEnds(query: string, users: seq<string>, assistants: seq<string>)
    ensures EndsWith(TurnPrompt(query, users, assistants), "User: " + query)
  {
    var head := Preamble + "User: " + Join(users + [query]) + "\n" + HistoryLine("Assistant: ", assistants);
    assert TurnPrompt(query, users, assistants) == head + ("User: " + query);
  }

  /** The two histories of the console conversation. */
  class Conversation {
    var userMessages: seq<string>
    var assistantMessages: seq<string>

    /** Documents only that the two histories grow one for one: every
        ordinary turn adds one entry to each, and a role switch empties both.
        No other contract relies on it. */
    ghost predicate Balanced()
      reads this
    {
      |userMessages| == |assistantMessages|
    }

    constructor ()
      ensures userMessages == [] && assistantMessages == []
      ensures Balanced()
    {
      userMessages := [];
      assistantMessages := [];
    }

    /** `handle_user_query`: the switch to the assistant role is checked
        first, then the switch to the user role; anything else is a turn. */
    method HandleUserQuery(query: string, complete: string -> Completion) returns (response: string)
      modifies this
      ensures Contains(Lower(query), SwitchToAssistant) ==>
        response == AssistantRoleReply && userMessages == [] && assistantMessages == []
      ensures !Contains(Lower(query), SwitchToAssistant) && Contains(Lower(query), SwitchToUser) ==>
        response == UserRoleReply && userMessages == [] && assistantMessages == []
      ensures !IsRoleSwitch(query) ==>
        && userMessages == old(userMessages) + [query]
        && assistantMessages == old(assistantMessages) + [response]
        && response == GenerateResponse(query, Some(HistoryContext(userMessages, old(assistantMessages))), complete).response
        && response == TurnResponse(query, old(userMessages), old(assistantMessages), complete)
        && response == GenerateResponseFixed(query, Some(HistoryContext(userMessages, old(assistantMessages))), complete).response
      ensures old(Balanced()) ==> Balanced()
    {
      var lowered := Lower(query);
      if Contains(lowered, SwitchToAssistant) {
        userMessages := [];
        assistantMessages := [];
        response := AssistantRoleReply;
      } else if Contains(lowered, SwitchToUser) {
        userMessages := [];
        assistantMessages := [];
        response := UserRoleReply;
      } else {
        TurnReply(query, userMessages, assistantMessages, complete);
        userMessages := userMessages + [query];
        var context := HistoryContext(userMessages, assistantMessages);
        assert |context| > 0;
        var reply := GenerateResponse(query, Some(context), complete);
        response := reply.response;
        assistantMessages := assistantMessages + [response];
      }
    }
  }
}
