/** The per-user conversation store of main.py and the two message handlers
    that update it: `process_clear_command` (main.py:32-36) and
    `send_welcome` (main.py:39-71). */
module Bot {
  import opened Turns
  import opened Trim

  /** A sender's numeric identifier, `message.from_user.id`. */
  type UserId = int

  /** What one call of the completion provider produced: the reply text
      taken from the first choice, or an exception raised by the call or while
      reading its response (network error, missing field, unknown model). */
  datatype Completion = Replied(text: string) | Failed

  /** The completion provider, seen as a function of the model name and the
      conversation it is given. A handler's contract holds for every such
      function, so nothing is assumed about what the provider answers. */
  type Provider = (string, seq<Turn>) -> Completion

  /** The model `send_welcome` asks for (main.py:58). */
  const ModelName: string := "openai/gpt-3.5-turbo"

  /** The message that only greets and touches no history (main.py:44). */
  const StartCommand: string := "/start"

  const WelcomeReply: string := "Добро пожаловать в ChatGPT-бот!"
  const ClearedReply: string := "История диалога очищена."

  /** The assistant's text when the provider call fails (main.py:65). */
  const FallbackReply: string := "Извините, произошла ошибка."

  /** The assistant text stored and sent for a provider outcome
      (main.py:62, main.py:65). */
  function ReplyText(c: Completion): (s: string)
    ensures c.Failed? ==> s == FallbackReply
    ensures c.Replied? ==> s == c.text
  {
    match c
    case Replied(text) => text
    case Failed => FallbackReply
  }

  /** A user's conversation as `send_welcome` starts from it: the stored
      list, or the empty list it creates for a new user (main.py:48-49). */
  function Prior(history: map<UserId, seq<Turn>>, user: UserId): (c: seq<Turn>)
    ensures user in history ==> c == history[user]
    ensures user !in history ==> c == []
  {
    if user in history then history[user] else []
  }

  /** What `process_clear_command` leaves: that user's list is empty (not
      removed) and every other entry is as it was (main.py:35). */
  function Cleared(history: map<UserId, seq<Turn>>, user: UserId): (h: map<UserId, seq<Turn>>)
    ensures h.Keys == history.Keys + {user}
    ensures h[user] == []
    ensures forall v :: v in history && v != user ==> h[v] == history[v]
  {
    history[user := []]
  }

  /** The conversation sent to the provider: the prior conversation with the
      user's turn appended, trimmed to the default budget (main.py:51-54). */
  function Prompt(history: map<UserId, seq<Turn>>, user: UserId, text: string): (p: seq<Turn>)
    ensures IsMinimalEviction(p, Prior(history, user) + [Turn(User, text)], DefaultMaxLength)
  {
    TrimmedIsMinimalEviction(Prior(history, user) + [Turn(User, text)], DefaultMaxLength);
    Trimmed(Prior(history, user) + [Turn(User, text)], DefaultMaxLength)
  }

  /** The store after `send_welcome` handled a message other than `/start`:
      the user's conversation is the prompt followed by the assistant's turn
      (main.py:67), with no second trim, and no other user's entry changes. */
  function AfterMessage(history: map<UserId, seq<Turn>>, user: UserId, text: string, provider: Provider)
    : (h: map<UserId, seq<Turn>>)
    ensures user in h && |h[user]| == |Prompt(history, user, text)| + 1
    ensures h[user][|h[user]| - 1].role == Assistant
  {
    var prompt := Prompt(history, user, text);
    history[user := prompt + [Turn(Assistant, ReplyText(provider(ModelName, prompt)))]]
  }

  /** The process-wide `conversation_history` dictionary (main.py:21) and
      the handlers that update it. */
  class ChatBot {
    var history: map<UserId, seq<Turn>>

    /** The store starts empty when the process starts. */
    constructor ()
      ensures history == map[]
    {
      history := map[];
    }

    /** `process_clear_command` (main.py:32-36): reset the sender's
        conversation to the empty list and acknowledge. */
    method ProcessClearCommand(user: UserId) returns (reply: string)
      modifies this
      ensures history == Cleared(old(history), user)
      ensures reply == ClearedReply
    {
      history := history[user := []];
      reply := ClearedReply;
    }

    /** `send_welcome` (main.py:39-71): greet on `/start`; otherwise record
        the user's turn, trim, ask the provider with the trimmed conversation,
        and record and return the assistant's reply. */
    method SendWelcome(user: UserId, text: string, provider: Provider) returns (reply: string)
      modifies this
      ensures text == StartCommand ==> history == old(history) && reply == WelcomeReply
      ensures text != StartCommand ==> history == AfterMessage(old(history), user, text, provider)
      ensures text != StartCommand ==> reply == ReplyText(provider(ModelName, Prompt(old(history), user, text)))
    {
      if text == StartCommand {
        reply := WelcomeReply;
      } else {
        if user !in history {
          history := history[user := []];
        }
        var conversation := history[user] + [Turn(User, text)];
        history := history[user := conversation];
        conversation := TrimHistory(conversation, DefaultMaxLength);
        history := history[user := conversation];
        var completion := provider(ModelName, conversation);
        reply := ReplyText(completion);
        history := history[user := conversation + [Turn(Assistant, reply)]];
      }
    }
  }

  /** A message touches only its sender's entry, creating it if needed;
      every other user's conversation is as it was. */
  lemma MessageIsolation(history: map<UserId, seq<Turn>>, user: UserId, text: string, provider: Provider)
    ensures var h := AfterMessage(history, user, text, provider);
      && h.Keys == history.Keys + {user}
      && forall v :: v in history && v != user ==> h[v] == history[v]
  {
  }

  /** Clearing twice is clearing once. */
  lemma ClearIdempotent(history: map<UserId, seq<Turn>>, user: UserId)
    ensures Cleared(Cleared(history, user), user) == Cleared(history, user)
  {
  }

  /** A user never seen before and a user who just cleared are handled
      alike: the lazily created list and the cleared list are both empty. */
  lemma NewUserLikeCleared(history: map<UserId, seq<Turn>>, user: UserId, text: string, provider: Provider)
    requires user !in history
    ensures AfterMessage(history, user, text, provider)[user] == AfterMessage(Cleared(history, user), user, text, provider)[user]
  {
  }

  /** The conversation after a message ends with the assistant's turn; it
      carries the provider's text, or the fixed apology when the call failed. */
  lemma AssistantTurnLast(history: map<UserId, seq<Turn>>, user: UserId, text: string, provider: Provider)
    ensures var c := AfterMessage(history, user, text, provider)[user];
      var outcome := provider(ModelName, Prompt(history, user, text));
      && c != []
      && c[|c| - 1].role == Assistant
      && (outcome.Failed? ==> c[|c| - 1].content == FallbackReply)
      && (outcome.Replied? ==> c[|c| - 1].content == outcome.text)
  {
  }

  /** Before the assistant's turn, the conversation is the longest suffix of
      the prior conversation plus the user's turn that fits the budget. */
  lemma MessageKeepsLongestFittingSuffix(history: map<UserId, seq<Turn>>, user: UserId, text: string, provider: Provider)
    ensures var c := AfterMessage(history, user, text, provider)[user];
      && |c| >= 1
      && IsMinimalEviction(c[..|c| - 1], Prior(history, user) + [Turn(User, text)], DefaultMaxLength)
  {
    var c := AfterMessage(history, user, text, provider)[user];
    assert c[..|c| - 1] == Prompt(history, user, text);
    TrimmedIsMinimalEviction(Prior(history, user) + [Turn(User, text)], DefaultMaxLength);
  }

  /** The user's own turn survives the trim exactly when it fits the budget
      on its own; otherwise the assistant's turn is all that is left. */
  lemma UserTurnKeptIff(history: map<UserId, seq<Turn>>, user: UserId, text: string, provider: Provider)
    ensures var c := AfterMessage(history, user, text, provider)[user];
      (|c| >= 2 && c[|c| - 2] == Turn(User, text)) <==> |text| <= DefaultMaxLength
    ensures var c := AfterMessage(history, user, text, provider)[user];
      |text| > DefaultMaxLength ==> |c| == 1
  {
    var prompt := Prompt(history, user, text);
    var c := AfterMessage(history, user, text, provider)[user];
    PromptEndsWithUserTurnIff(history, user, text);
    assert c[..|c| - 1] == prompt;
  }

  /** The trimmed prompt ends with the user's turn exactly when that turn
      fits the budget on its own, and is empty otherwise. */
  lemma PromptEndsWithUserTurnIff(history: map<UserId, seq<Turn>>, user: UserId, text: string)
    ensures var p := Prompt(history, user, text);
      (p != [] && p[|p| - 1] == Turn(User, text)) <==> |text| <= DefaultMaxLength
    ensures |text| > DefaultMaxLength ==> Prompt(history, user, text) == []
  {
    var extended := Prior(history, user) + [Turn(User, text)];
    var p := Prompt(history, user, text);
    TrimmedEmptyIff(extended, DefaultMaxLength);
    assert extended[|extended| - 1] == Turn(User, text);
    TrimmedIsSuffix(extended, DefaultMaxLength);
    if p != [] {
      assert p == extended[|extended| - |p|..];
      assert p[|p| - 1] == extended[|extended| - 1];
    }
  }

  /** The budget holds when a message has been trimmed; only the assistant's
      reply, appended afterwards, can push the total past it. */
  lemma MessageHistoryBound(history: map<UserId, seq<Turn>>, user: UserId, text: string, provider: Provider)
    ensures TotalLength(AfterMessage(history, user, text, provider)[user])
      <= DefaultMaxLength + |ReplyText(provider(ModelName, Prompt(history, user, text)))|
  {
    var prompt := Prompt(history, user, text);
    var assistant := Turn(Assistant, ReplyText(provider(ModelName, prompt)));
    TrimmedWithinBudget(Prior(history, user) + [Turn(User, text)], DefaultMaxLength);
    TotalLengthAppend(prompt, [assistant]);
    TotalLengthSingle(assistant);
  }

  /** Right after a clear, a message leaves a conversation of at most two
      turns: the user's (when it fits) and the assistant's. */
  lemma MessageAfterClear(history: map<UserId, seq<Turn>>, user: UserId, text: string, provider: Provider)
    ensures var c := AfterMessage(Cleared(history, user), user, text, provider)[user];
      var reply := Turn(Assistant, ReplyText(provider(ModelName, Prompt(Cleared(history, user), user, text))));
      c == if |text| <= DefaultMaxLength then [Turn(User, text), reply] else [reply]
  {
    var single := [Turn(User, text)];
    assert Prior(Cleared(history, user), user) + [Turn(User, text)] == single;
    TotalLengthSingle(Turn(User, text));
    if |text| > DefaultMaxLength {
      assert Trimmed(single, DefaultMaxLength) == Trimmed(single[1..], DefaultMaxLength);
    }
  }

  /** When the prior conversation plus the user's turn fits the budget,
      nothing is evicted: the message only appends the two new turns. */
  lemma MessageAppendsWhenFits(history: map<UserId, seq<Turn>>, user: UserId, text: string, provider: Provider)
    requires TotalLength(Prior(history, user)) + |text| <= DefaultMaxLength
    ensures var reply := Turn(Assistant, ReplyText(provider(ModelName, Prompt(history, user, text))));
      AfterMessage(history, user, text, provider)[user] == Prior(history, user) + [Turn(User, text), reply]
  {
    var extended := Prior(history, user) + [Turn(User, text)];
    TotalLengthAppend(Prior(history, user), [Turn(User, text)]);
    TotalLengthSingle(Turn(User, text));
    TrimmedKeepsFitting(extended, DefaultMaxLength);
  }
}
