/** Collapsing a conversation context (a list of `{role, content}` messages)
    into at most one user entry followed by at most one assistant entry. */
module ContextCompression {

  /** One entry of a conversation context. The role is free text: only the
      roles `User` and `Assistant` mean anything to compression. */
  datatype Message = Message(role: string, content: string)

  const User: string := "user"
  const Assistant: string := "assistant"

  /** The separator-joined concatenation of `parts`, as `' '.join(parts)`. */
  function Join(parts: seq<string>): (r: string)
    ensures parts == [] ==> r == ""
    ensures |parts| == 1 ==> r == parts[0]
  {
    if |parts| == 0 then ""
    else if |parts| == 1 then parts[0]
    else parts[0] + " " + Join(parts[1..])
  }

  /** The joined text begins with the first part and ends with the last. */
  lemma {:induction false} JoinEnds(parts: seq<string>)
    requires parts != []
    ensures parts[0] <= Join(parts)
    ensures var last := parts[|parts| - 1];
      |last| <= |Join(parts)| && Join(parts)[|Join(parts)| - |last|..] == last
  {
    if |parts| > 1 {
      JoinEnds(parts[1..]);
      var rest := Join(parts[1..]);
      assert Join(parts) == (parts[0] + " ") + rest;
    }
  }

  /** Joining two non-empty lists puts exactly one separator between them. */
  lemma {:induction false} JoinAppend(xs: seq<string>, ys: seq<string>)
    requires xs != [] && ys != []
    ensures Join(xs + ys) == Join(xs) + " " + Join(ys)
  {
    if |xs| == 1 {
      assert (xs + ys)[1..] == ys;
    } else {
      assert (xs + ys)[1..] == xs[1..] + ys;
      JoinAppend(xs[1..], ys);
    }
  }

  /** Joining is lossy: a space inside one part cannot be told apart from a
      separator between two parts. */
  lemma JoinIsLossy()
    ensures Join(["hi how", "are you"]) == Join(["hi", "how are you"])
  {
  }

  /** Some message of `context` has role `role`. */
  predicate HasRole(context: seq<Message>, role: string)
  {
    exists m :: m in context && m.role == role
  }

  /** The contents of the messages of `context` whose role is `role`, in
      input order: `[m['content'] for m in context if m['role'] == role]`. */
  function ContentsWithRole(context: seq<Message>, role: string): (r: seq<string>)
    ensures |r| <= |context|
    ensures forall x :: x in r ==> exists m :: m in context && m.role == role && m.content == x
    ensures forall m :: m in context && m.role == role ==> m.content in r
  {
    if context == [] then []
    else
      var rest := ContentsWithRole(context[1..], role);
      assert forall m :: m in context[1..] ==> m in context;
      if context[0].role == role then [context[0].content] + rest else rest
  }

  /** A role has contents exactly when some message carries it. */
  lemma ContentsWithRoleNonEmpty(context: seq<Message>, role: string)
    ensures ContentsWithRole(context, role) != [] <==> HasRole(context, role)
  {
  }

  /** Selecting by role commutes with concatenation, so the selection keeps
      the input order. */
  lemma {:induction false} ContentsWithRoleAppend(a: seq<Message>, b: seq<Message>, role: string)
    ensures ContentsWithRole(a + b, role) == ContentsWithRole(a, role) + ContentsWithRole(b, role)
  {
    if a == [] {
      assert a + b == b;
    } else {
      assert (a + b)[1..] == a[1..] + b;
      ContentsWithRoleAppend(a[1..], b, role);
    }
  }

  /** The selection of a single message. */
  lemma ContentsWithRoleSingle(m: Message, role: string)
    ensures ContentsWithRole([m], role) == if m.role == role then [m.content] else []
  {
  }

  /** The entry a role contributes to the compressed context, if any. */
  function Entry(context: seq<Message>, role: string): (r: seq<Message>)
    ensures |r| <= 1
    ensures r != [] <==> HasRole(context, role)
    ensures r != [] ==> r[0].role == role && r[0].content == Join(ContentsWithRole(context, role))
  {
    ContentsWithRoleNonEmpty(context, role);
    var contents := ContentsWithRole(context, role);
    if contents != [] then [Message(role, Join(contents))] else []
  }

  /** `compress_context`: all user contents joined into one user entry, then
      all assistant contents joined into one assistant entry; messages with
      any other role are dropped. */
  function Compress(context: seq<Message>): (r: seq<Message>)
    ensures |r| <= 2
    ensures forall i :: 0 <= i < |r| ==> r[i].role == User || r[i].role == Assistant
    ensures HasRole(context, User) <==> (|r| > 0 && r[0].role == User)
    ensures HasRole(context, Assistant) <==> (|r| > 0 && r[|r| - 1].role == Assistant)
    ensures |r| == 2 ==> r[0].role == User && r[1].role == Assistant
    ensures forall i :: 0 <= i < |r| ==> r[i].content == Join(ContentsWithRole(context, r[i].role))
  {
    ContentsWithRoleNonEmpty(context, User);
    ContentsWithRoleNonEmpty(context, Assistant);
    Entry(context, User) + Entry(context, Assistant)
  }

  /** What selecting a role from a compressed context yields: the joined
      contents of that role in the original, as a single element. */
  lemma CompressedContents(context: seq<Message>, role: string)
    requires role == User || role == Assistant
    ensures ContentsWithRole(Compress(context), role)
         == if HasRole(context, role) then [Join(ContentsWithRole(context, role))] else []
  {
  }

  /** Compressing a compressed context changes nothing: joining a single
      element yields that element. */
  lemma CompressIdempotent(context: seq<Message>)
    ensures Compress(Compress(context)) == Compress(context)
  {
    var c := Compress(context);
    CompressedContents(context, User);
    CompressedContents(context, Assistant);
    ContentsWithRoleNonEmpty(context, User);
    ContentsWithRoleNonEmpty(context, Assistant);
    assert Entry(c, User) == Entry(context, User);
    assert Entry(c, Assistant) == Entry(context, Assistant);
  }

  /** A message whose role is neither `User` nor `Assistant`, wherever it
      stands, contributes nothing. */
  lemma CompressIgnoresOtherRoles(a: seq<Message>, m: Message, b: seq<Message>)
    requires m.role != User && m.role != Assistant
    ensures Compress(a + [m] + b) == Compress(a + b)
  {
    forall role | role == User || role == Assistant
      ensures ContentsWithRole(a + [m] + b, role) == ContentsWithRole(a + b, role)
    {
      ContentsWithRoleAppend(a + [m], b, role);
      ContentsWithRoleAppend(a, [m], role);
      ContentsWithRoleSingle(m, role);
      ContentsWithRoleAppend(a, b, role);
    }
    CompressBySelection(a + [m] + b, a + b);
  }

  /** Two messages of different roles select the same contents whichever
      comes first. */
  lemma SwapPairContents(m1: Message, m2: Message, role: string)
    requires m1.role != m2.role
    ensures ContentsWithRole([m1, m2], role) == ContentsWithRole([m2, m1], role)
  {
  }

  /** Two contexts that select the same contents for both roles compress
      alike. */
  lemma CompressBySelection(c1: seq<Message>, c2: seq<Message>)
    requires ContentsWithRole(c1, User) == ContentsWithRole(c2, User)
    requires ContentsWithRole(c1, Assistant) == ContentsWithRole(c2, Assistant)
    ensures Compress(c1) == Compress(c2)
  {
  }

  /** Compression forgets how the two speakers were interleaved: swapping
      two neighbouring messages of different roles changes nothing. */
  lemma CompressForgetsInterleaving(a: seq<Message>, m1: Message, m2: Message, b: seq<Message>)
    requires m1.role != m2.role
    ensures Compress(a + [m1, m2] + b) == Compress(a + [m2, m1] + b)
  {
    forall role | role == User || role == Assistant
      ensures ContentsWithRole(a + [m1, m2] + b, role) == ContentsWithRole(a + [m2, m1] + b, role)
    {
      ContentsWithRoleAppend(a + [m1, m2], b, role);
      ContentsWithRoleAppend(a + [m2, m1], b, role);
      ContentsWithRoleAppend(a, [m1, m2], role);
      ContentsWithRoleAppend(a, [m2, m1], role);
      SwapPairContents(m1, m2, role);
    }
    CompressBySelection(a + [m1, m2] + b, a + [m2, m1] + b);
  }

  /** The contents each role selects from the example exchange below. */
  lemma TwoUserTurnsContents(m1: Message, m2: Message, m3: Message)
    requires m1 == Message(User, "hi") && m2 == Message(User, "how are you")
    requires m3 == Message(Assistant, "hello")
    ensures ContentsWithRole([m1, m2, m3], User) == ["hi", "how are you"]
    ensures ContentsWithRole([m1, m2, m3], Assistant) == ["hello"]
  {
    assert [m1, m2, m3] == [m1] + [m2] + [m3];
    forall role | role == User || role == Assistant
      ensures ContentsWithRole([m1, m2, m3], role)
           == ContentsWithRole([m1], role) + ContentsWithRole([m2], role) + ContentsWithRole([m3], role)
    {
      ContentsWithRoleAppend([m1] + [m2], [m3], role);
      ContentsWithRoleAppend([m1], [m2], role);
    }
    ContentsWithRoleSingle(m1, User);
    ContentsWithRoleSingle(m2, User);
    ContentsWithRoleSingle(m3, User);
    ContentsWithRoleSingle(m1, Assistant);
    ContentsWithRoleSingle(m2, Assistant);
    ContentsWithRoleSingle(m3, Assistant);
  }

  /** Two user turns and one assistant turn compress to one entry each. */
  lemma CompressTwoUserTurns()
    ensures Compress([Message(User, "hi"), Message(User, "how are you"), Message(Assistant, "hello")])
         == [Message(User, "hi how are you"), Message(Assistant, "hello")]
  {
    var m1, m2, m3 := Message(User, "hi"), Message(User, "how are you"), Message(Assistant, "hello");
    TwoUserTurnsContents(m1, m2, m3);
    var joined := Join(["hi", "how are you"]);
    assert joined == "hi how are you" by {
      assert ["hi", "how are you"][1..] == ["how are you"];
    }
    var c := [m1, m2, m3];
    assert Entry(c, User) == [Message(User, joined)];
    assert Entry(c, Assistant) == [Message(Assistant, "hello")];
    assert Compress(c) == Entry(c, User) + Entry(c, Assistant);
  }
}
