# Per-user conversation history of the Telegram chat relay

The bot relays each user's text to a chat-completion provider and sends back the
reply. It keeps every user's conversation in one process-wide dictionary,
`conversation_history`, from user id to a list of `{role, content}` turns. This
project models that dictionary and the code that updates it:

- `trim_history` evicts the oldest turns until the total content length of the
  list is at most `max_length` (4096 by default), or until the list is empty.
- `process_clear_command` resets one user's list to the empty list.
- `send_welcome` ignores `/start`. For any other text it creates the sender's
  list if needed, appends the user's turn, trims, asks the provider with the
  trimmed list (falling back to a fixed apology on any failure), and appends
  the assistant's turn. There is no second trim after that append.

Files:

- `turns.dfy` (module `Turns`): the `Turn` value and `TotalLength`, the budget
  measure, with its additivity and monotonicity lemmas.
- `trim.dfy` (module `Trim`): `Trimmed`, the value `trim_history` returns, and
  the `TrimHistory` method with the source's `while` loop and running
  `currentLength`. The lemmas show that `Trimmed` is exactly the longest suffix
  within the budget.
- `bot.dfy` (module `Bot`): the `ChatBot` class, whose `history` field is the
  dictionary, with the two handlers as methods. `Cleared`, `Prompt` and
  `AfterMessage` are pure functions that give the new state, and lemmas state
  what a clear or a message does to it.

The completion provider is a parameter of type `(string, seq<Turn>) -> Completion`.
It receives the model name and the trimmed conversation. `Completion` is either
`Replied(text)` or `Failed`, and `Failed` covers every exception the source
catches, including a response that raises while it is being read. The
handler's contract holds for every such function, so it assumes nothing about
what the provider answers.

A single turn longer than the budget is not kept. The loop condition
`while history and current_length > max_length` (main.py:26) also pops a lone
oversized turn, so the result is the empty list, as `TrimmedEmptyIff` and
`UserTurnKeptIff` state.

Lengths are Python `len` of a `str`. A Dafny `char` is a Unicode scalar value,
so `|content|` counts the same code points. Python integers are unbounded, and
so are Dafny's, so no width is modelled. `maxLength` may be any integer. With a
negative budget every turn is evicted, and the bound is stated as
"within the budget or empty" for that reason.

## Model

| member | source | states |
|---|---|---|
| Trim.Trimmed | main.py:24-29 | the list `trim_history` returns is never longer than its input |
| Trim.TrimHistory | main.py:24-29 | the loop, with `currentLength` kept equal to the total of the remaining turns, returns `Trimmed(history, maxLength)`; the result is a suffix of the input, is within the budget or empty, and every longer suffix exceeds the budget |
| Trim.TrimmedIsSuffix | main.py:27 | only front turns are removed; the survivors are the input's last turns in their original order |
| Trim.TrimmedWithinBudget | main.py:26-28 | after trimming the total content length is at most `maxLength`, or the list is empty (a lone oversized turn is evicted too) |
| Trim.TrimmedNoNeedlessEviction | main.py:26-28 | every suffix of the input longer than the result exceeds the budget, so no turn is evicted that could have stayed |
| Trim.TrimmedIsMinimalEviction | main.py:24-29 | the result is a suffix, within the budget or empty, and minimal |
| Trim.MinimalEvictionUnique | main.py:24-29 | any suffix that fits the budget and evicts minimally equals the result of trimming, so trimming returns the longest fitting suffix |
| Trim.TrimmedKeepsFitting | main.py:25-26 | a list whose total is already within the budget is returned unchanged |
| Trim.TrimmedIdempotent | main.py:24-29 | trimming an already trimmed list with the same budget changes nothing |
| Trim.TrimmedEmptyIff | main.py:26-28 | trimming empties a non-empty list exactly when its newest turn alone exceeds the budget |
| Bot.ReplyText | main.py:56-65 | the assistant text is the provider's reply, or exactly "Извините, произошла ошибка." when the call failed |
| Bot.Cleared | main.py:35 | after a clear the user's entry exists and is empty; the set of users gains that user and every other entry is unchanged |
| Bot.Prior | main.py:48-49 | the conversation a message starts from: the stored list when the user has an entry, the empty list created lazily otherwise |
| Bot.Prompt | main.py:51-54 | the conversation handed to the provider is the minimal eviction of the prior conversation plus the user's turn at the 4096 budget: a suffix of it, within the budget or empty, with every longer suffix over the budget |
| Bot.AfterMessage | main.py:48-67 | the store after a non-`/start` message: the sender's entry exists and is one turn longer than the prompt, and that last turn is the assistant's (no second trim) |
| Bot.ChatBot.constructor | main.py:21 | the dictionary starts empty |
| Bot.ChatBot.ProcessClearCommand | main.py:32-36 | the store becomes `Cleared(old store, user)` and the acknowledgement text is returned |
| Bot.ChatBot.SendWelcome | main.py:39-71 | `/start` leaves the store untouched and returns the welcome text; any other text makes the store `AfterMessage(old store, ...)` and returns the assistant text for the provider's answer to the trimmed conversation |
| Bot.MessageIsolation | main.py:48-67 | a message adds only its sender's key, if it was missing, and leaves every other user's conversation unchanged |
| Bot.ClearIdempotent | main.py:35 | clearing twice gives the same store as clearing once |
| Bot.NewUserLikeCleared | main.py:48-49 | the lazily created list of a new user behaves like a cleared list: the same message gives the same conversation |
| Bot.AssistantTurnLast | main.py:63-67 | after a message the conversation ends with an assistant turn holding the provider's text, or the fixed apology when the provider failed |
| Bot.MessageKeepsLongestFittingSuffix | main.py:48-52 | before the assistant turn the conversation is the longest suffix of the old conversation plus the user turn that fits 4096 characters, or empty |
| Bot.PromptEndsWithUserTurnIff | main.py:51-52 | the conversation sent to the provider ends with the user's turn exactly when that text fits 4096 characters, and is empty otherwise |
| Bot.UserTurnKeptIff | main.py:51-67 | the user's turn is second to last after a message exactly when its text fits 4096 characters; otherwise only the assistant turn remains |
| Bot.MessageHistoryBound | main.py:52-67 | after a message the conversation totals at most 4096 plus the length of the assistant text, because nothing trims after the final append |
| Bot.MessageAfterClear | main.py:35-67 | right after a clear a message leaves exactly the user turn (if it fits) followed by the assistant turn |
| Bot.MessageAppendsWhenFits | main.py:51-67 | when the old conversation plus the new text fits the budget, nothing is evicted and the two new turns are appended |

## Left out

- Message dispatch by the bot framework (aiogram `Bot`, `Dispatcher`, the handler decorators, the `/clear` command filter and `executor.start_polling`) is left out. The model calls the handlers directly with the sender's id and the message text.
- Sending replies (`message.reply`, `message.answer`) is I/O. The handlers return the reply text instead.
- The `openai.ChatCompletion.acreate` network call and the parsing of `response["choices"][0]["message"]["content"]` are a foreign library call. They are replaced by the provider parameter, and a response that raises while being read counts as `Failed`.
- A reply whose content is `null` or not a string is not modelled. Reading it at main.py:62 raises nothing, so it is stored as the assistant turn at main.py:67. `len` then raises at main.py:69, outside the `try`, and again in `trim_history` (main.py:25) on every later message from that user until `/clear`. `Replied` carries a string only, so the model cannot reach that state.
- Concurrency is left out. The provider call is an `await`, so another update for the same user could clear or extend the same list before the assistant turn is appended. The model runs each handler to completion.
- In-place mutation and aliasing are modelled on values. `trim_history` pops from the list object the dictionary holds, and `chat_history` aliases it. The source assigns the returned list back under the same key (main.py:52), so in a sequential run the value model ends in the same state.
- Logging, `print` and the debug total computed at main.py:68-70 do not affect the state and are left out.
- Non-text messages are left out: the default handler only receives text, so `message.text` is always a string here.
- models.py (`LLM_MODELS`, `SYSTEM_PROMPT`) is not used by main.py and is not part of this model.
