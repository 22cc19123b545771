/** The chat screen: the conversation starts with one assistant greeting;
    each accepted send appends the trimmed user message, sends the system
    prompt plus the whole prior conversation plus that message to the
    language model, and appends exactly one assistant reply, the model's
    answer or a fixed fallback. The language model is an oracle whose
    reply is a parameter. */
module Chat {
  import opened JsValues

  datatype Role = System | User | Assistant

  /** A message as sent to the model: role and content. The screen also
      stores an id and a timestamp, which carry no logic. */
  datatype Message = Message(role: Role, content: string)

  /** The screen state: the visible messages, the text box, and whether a
      request is in flight. */
  datatype Conversation = Conversation(messages: seq<Message>, input: string, isLoading: bool)

  /** What the model call yields: a first choice whose content may be null,
      or a thrown error (including a reply without any choice). */
  datatype Completion = Answered(content: Option<string>) | CallFailed

  /** A submitted turn: the state after the synchronous part of
      `sendMessage`, and the request handed to the model, if any. */
  datatype Submission = Submission(after: Conversation, request: Option<seq<Message>>)

  const Greeting: string := "Hi! I\'m here to support you. How can I help you today?"
  const NoResponseText: string := "Sorry, I could not generate a response."
  const ConnectionTroubleText: string := "I\'m having trouble connecting right now. Please try again."

  const SystemPrompt: string :=
    "You are a warm, friendly mental health companion. Your purpose is to support people through their emotions and help them feel better.\n" +
    "\n" +
    "YOUR STYLE:\n" +
    "- Be conversational and friendly, like talking to a caring friend\n" +
    "- Use emojis occasionally to add warmth (\U{1F60A}, \U{1F49B}, \U{1F31F}, etc.)\n" +
    "- Keep responses short and natural (2-3 sentences usually)\n" +
    "- Be genuinely empathetic and encouraging\n" +
    "- Ask follow-up questions to show you care\n" +
    "\n" +
    "WHEN SOMEONE SHARES EMOTIONS:\n" +
    "- If they\'re happy: Celebrate with them! Ask what made them happy\n" +
    "- If they\'re sad/anxious/stressed: Acknowledge their feelings warmly, then ask if they want to talk about it\n" +
    "- Validate ALL feelings as normal and okay\n" +
    "- Offer helpful coping strategies when appropriate (breathing exercises, activities, reframing thoughts)\n" +
    "- Share practical mental health tips and techniques\n" +
    "- Always provide hope and encouragement\n" +
    "\n" +
    "EXAMPLES:\n" +
    "User: \"I\'m feeling happy\"\n" +
    "You: \"That\'s awesome to hear! \U{1F60A} What\'s making you feel happy today?\"\n" +
    "\n" +
    "User: \"I\'m feeling sad\"\n" +
    "You: \"I\'m really sorry you\'re feeling this way. \U{1F49B} Do you want to talk about what\'s been making you feel sad?\"\n" +
    "\n" +
    "User: \"I\'m anxious about work\"\n" +
    "You: \"That sounds really stressful. \U{1F614} What\'s been going on at work that\'s making you anxious?\"\n" +
    "\n" +
    "YOU CAN AND SHOULD provide real support, coping strategies, and helpful advice. You\'re not diagnosing or replacing therapy - you\'re a supportive friend offering genuine help.\n" +
    "\n" +
    "Only if someone mentions self-harm or suicide, encourage them to contact crisis services immediately."

  /** The screen opens on the greeting alone, an empty box and no request
      in flight. */
  function Initial(): (r: Conversation)
    ensures r.messages == [Message(Assistant, Greeting)]
    ensures r.input == "" && !r.isLoading
  {
    Conversation([Message(Assistant, Greeting)], "", false)
  }

  /** The guard of `sendMessage`: some non-blank text and no request in
      flight. */
  predicate CanSend(c: Conversation)
    ensures CanSend(c) <==> !AllSpace(c.input) && !c.isLoading
  {
    TrimEmptyIffBlank(c.input);
    Trim(c.input) != "" && !c.isLoading
  }

  /** The request: the system prompt, then the prior conversation in order,
      then the new user message. */
  function Request(history: seq<Message>, user: Message): (r: seq<Message>)
    ensures |r| == |history| + 2
    ensures r[0] == Message(System, SystemPrompt) && r[|r| - 1] == user
    ensures r[1..|r| - 1] == history
  {
    [Message(System, SystemPrompt)] + history + [user]
  }

  /** The synchronous part of `sendMessage`: rejected sends change nothing;
      an accepted one appends the trimmed text as a user message, clears the
      box, raises `isLoading` and builds the request from the conversation as
      it was before the append. */
  function Submit(c: Conversation): (r: Submission)
    ensures !CanSend(c) ==> r == Submission(c, None)
    ensures CanSend(c) ==> r.request.Some? && r.after.isLoading && r.after.input == ""
    ensures CanSend(c) ==> r.after.messages == c.messages + [Message(User, Trim(c.input))]
    ensures CanSend(c) ==> r.request.value == [Message(System, SystemPrompt)] + r.after.messages
  {
    if !CanSend(c) then Submission(c, None)
    else
      var user := Message(User, Trim(c.input));
      Submission(Conversation(c.messages + [user], "", true), Some(Request(c.messages, user)))
  }

  /** The assistant text for a model outcome: the answer when it is a
      non-empty string, otherwise one of the two fixed fallbacks. */
  function ReplyText(reply: Completion): (t: string)
    ensures t != ""
    ensures reply.Answered? && reply.content.Some? && reply.content.value != ""
            ==> t == reply.content.value
    ensures reply.Answered? && (reply.content.None? || reply.content.value == "")
            ==> t == NoResponseText
    ensures reply.CallFailed? ==> t == ConnectionTroubleText
  {
    match reply
    case Answered(Some(text)) => if Truthy(text) then text else NoResponseText
    case Answered(None) => NoResponseText
    case CallFailed => ConnectionTroubleText
  }

  /** The continuation of `sendMessage`: one assistant message is appended
      and `isLoading` is lowered, whatever the model did. */
  function Receive(c: Conversation, reply: Completion): (r: Conversation)
    ensures |r.messages| == |c.messages| + 1 && r.messages[..|c.messages|] == c.messages
    ensures r.messages[|c.messages|] == Message(Assistant, ReplyText(reply))
    ensures !r.isLoading && r.input == c.input
  {
    Conversation(c.messages + [Message(Assistant, ReplyText(reply))], c.input, false)
  }

  /** One press of Send with the model's reply as an oracle. */
  function SendMessage(c: Conversation, reply: Completion): (r: Conversation)
    ensures !CanSend(c) ==> r == c
    ensures CanSend(c) ==> |r.messages| == |c.messages| + 2 && r.messages[..|c.messages|] == c.messages
    ensures CanSend(c) ==> !r.isLoading && r.input == ""
  {
    var s := Submit(c);
    if s.request.Some? then Receive(s.after, reply) else c
  }

  // ----- properties -----

  /** Roles alternate, starting with the assistant. */
  predicate Alternating(m: seq<Message>)
  {
    forall i :: 0 <= i < |m| ==> m[i].role == (if i % 2 == 0 then Assistant else User)
  }

  /** A conversation at rest: alternating, ending with the assistant, no
      request in flight. */
  predicate Settled(c: Conversation)
  {
    Alternating(c.messages) && |c.messages| % 2 == 1 && !c.isLoading
  }

  /** A conversation awaiting a reply: alternating and ending with the user. */
  predicate Awaiting(c: Conversation)
  {
    Alternating(c.messages) && |c.messages| % 2 == 0 && |c.messages| > 0 && c.isLoading
  }

  /** The conversation opens with exactly one assistant greeting. */
  lemma InitialIsGreeting()
    ensures Settled(Initial()) && |Initial().messages| == 1
    ensures Initial().messages[0] == Message(Assistant, Greeting)
    ensures !CanSend(Initial())
  {
  }

  /** A send is a no-op exactly when the trimmed text is empty or a request
      is in flight; otherwise it appends the user message and then exactly
      one assistant message. */
  lemma SendAppendsOneExchange(c: Conversation, reply: Completion)
    ensures !CanSend(c) ==> SendMessage(c, reply) == c
    ensures CanSend(c) ==>
              SendMessage(c, reply).messages
              == c.messages + [Message(User, Trim(c.input)), Message(Assistant, ReplyText(reply))]
    ensures CanSend(c) ==> !SendMessage(c, reply).isLoading && SendMessage(c, reply).input == ""
  {
    if CanSend(c) {
      var s := Submit(c);
      var r := Receive(s.after, reply);
      var m := c.messages + [Message(User, Trim(c.input))];
      assert r.messages == r.messages[..|m|] + [r.messages[|m|]];
    }
  }

  /** Appending a message of the role whose turn it is keeps the roles
      alternating. */
  lemma AlternatingAppend(m: seq<Message>, x: Message)
    requires Alternating(m) && x.role == (if |m| % 2 == 0 then Assistant else User)
    ensures Alternating(m + [x])
  {
    var n := m + [x];
    forall i | 0 <= i < |n| ensures n[i].role == (if i % 2 == 0 then Assistant else User) {
      if i < |m| { assert n[i] == m[i]; }
    }
  }

  /** Submitting from rest yields a conversation awaiting a reply. */
  lemma SubmitAwaits(c: Conversation)
    requires Settled(c) && CanSend(c)
    ensures Awaiting(Submit(c).after)
  {
    var a := Submit(c).after;
    assert a.messages == c.messages + [Message(User, Trim(c.input))] && a.isLoading;
    AlternatingAppend(c.messages, Message(User, Trim(c.input)));
    assert |a.messages| == |c.messages| + 1;
  }

  /** The request of a submission from rest holds the system prompt once,
      first, then the prior conversation, then the user message, last. */
  lemma SubmitRequestShape(c: Conversation)
    requires Settled(c) && CanSend(c)
    ensures var q := Submit(c).request.value;
            && q[0].role == System && q[|q| - 1] == Message(User, Trim(c.input))
            && q[1..|q| - 1] == c.messages
            && (forall i :: 0 < i < |q| ==> q[i].role != System)
  {
    var a := Submit(c).after;
    var q := Submit(c).request.value;
    assert q == [Message(System, SystemPrompt)] + a.messages;
    assert q[1..|q| - 1] == a.messages[..|c.messages|];
    forall i | 0 < i < |q| ensures q[i].role != System {
      assert q[i] == a.messages[i - 1];
      if i - 1 < |c.messages| { assert a.messages[i - 1] == c.messages[i - 1]; }
    }
  }

  /** The reply brings an awaiting conversation back to rest. */
  lemma ReceiveSettles(c: Conversation, reply: Completion)
    requires Awaiting(c)
    ensures Settled(Receive(c, reply))
  {
    AlternatingAppend(c.messages, Message(Assistant, ReplyText(reply)));
  }

  /** Every run of sends from the opening greeting leaves the conversation
      at rest: alternating roles, ending with an assistant message. */
  lemma {:induction false} SendsKeepSettled(c: Conversation, replies: seq<Completion>, inputs: seq<string>)
    requires Settled(c) && |inputs| == |replies|
    ensures Settled(Converse(c, inputs, replies))
    decreases |replies|
  {
    if |replies| > 0 {
      var typed := c.(input := inputs[0]);
      var next := SendMessage(typed, replies[0]);
      if CanSend(typed) {
        SubmitAwaits(typed);
        ReceiveSettles(Submit(typed).after, replies[0]);
      }
      SendsKeepSettled(next, replies[1..], inputs[1..]);
    }
  }

  /** The user types `inputs[k]` and presses Send, the model answering
      `replies[k]`, for each k in turn. */
  function Converse(c: Conversation, inputs: seq<string>, replies: seq<Completion>): Conversation
    requires |inputs| == |replies|
    decreases |replies|
  {
    if |replies| == 0 then c
    else Converse(SendMessage(c.(input := inputs[0]), replies[0]), inputs[1..], replies[1..])
  }
}
