# Tel_bot1 intake handler, modelled in Dafny

The bot relays Telegram messages to Google's Gemini model. Its handler
`chat_ai` (main.py) is a small per-user state machine over the module-level
dict `user_names`:

- the first text message (not a command) from a user is taken, stripped, as that user's name
  (the entry goes from absent to `None` to the name) and answered with a
  greeting; the model is not called and nothing is logged;
- every later message is stripped and sent to the model; the user line is
  appended to `messages.txt`, the model's text (or a diagnostic carrying the
  exception text) is the reply, and the bot line is appended after it.
  A failed write is printed and otherwise ignored.

Files:

- `options.dfy` (module `Options`): `Option`, the type of a `user_names`
  entry (`None` is the placeholder written at main.py:42).
- `py_text.dfy` (module `PyText`): Python's `str.strip()` with the full set
  of characters for which Python 3's `str.isspace()` holds, and its
  characterisation (`StripUnique`).
- `replies.dfy` (module `Replies`): the greeting, the model reply or
  diagnostic, and the two log entries, with the exact texts of the source;
  each function's contract reads its value back out of its text.
- `intake.dfy` (module `Intake`): `Turn`, one call of `chat_ai` on values
  (`user_names`, log text) with the model result and the two write outcomes
  as inputs; `Run`, many calls in order; lemmas about both.
- `chat_bot.dfy` (module `ChatBot`): class `Bot` whose fields `userNames`
  and `log` are updated in place by `Handle`, following the statements of
  `chat_ai` one by one, and proved equal to `Turn`.

The opaque parts are inputs: the Gemini call is the `aiResult` argument
(`Ok(text)` for `response.text`, `Err(msg)` for the text of the exception
raised by `generate_content` or by reading `.text`), and the outcome of each
`open(...)`/`write` is a boolean. `Handle` also returns, as a ghost out-parameter, the text
handed to the model (`prompt`), so that "the model sees the stripped message"
can be stated.

In these details the code's behaviour is easy to misread; the model follows
the code:

- the message given to the model is the stripped text (main.py:38, 61), not
  the raw text;
- a new user's entry is created and filled in the same call (main.py:41-45);
  there is no call that leaves a user in the "awaiting name" state;
- the log is the text file `messages.txt` written in two separate appends,
  with no timestamp and no record structure (main.py:54-55, 71-72);
- a failed write is dropped after a `print` (main.py:56-57, 73-74), rather
  than surfaced.

## Model

| member | source | states |
|---|---|---|
| PyText.IsSpace | main.py:38 | a character is whitespace for `strip()` exactly when it is one of the 29 characters of Python 3's `str.isspace()` |
| PyText.Strip | main.py:38 | the result follows the leading whitespace of the input, keeps a contiguous slice, is followed by whitespace only, and neither starts nor ends with whitespace |
| PyText.StripUnique | main.py:38 | for whitespace-only `a`, `b` and an unpadded `r`, stripping `a + r + b` gives exactly `r` |
| PyText.StripKeepsUnpadded | main.py:38 | a message without surrounding whitespace is used unchanged |
| PyText.StripIdempotent | main.py:38 | stripping twice equals stripping once |
| PyText.StripEmptyIffBlank | main.py:38 | the stripped message is `""` exactly when the message is whitespace only |
| Replies.Greeting | main.py:46 | the greeting contains the captured name between its fixed head and tail, and the name is read back from it |
| Replies.GreetingInjective | main.py:46 | different names get different greetings |
| Replies.ChatReply | main.py:60-64 | on success the reply is the model's text unchanged; on failure it is non-empty, starts with the diagnostic head, and the error text is read back from it |
| Replies.UserEntry | main.py:55 | the first log write is `username:\n  🧠 User: message\n`, and the message is read back from it given the name |
| Replies.BotEntry | main.py:72 | the second log write is `  🤖 Bot: reply\n\n`, and the reply is read back from it |
| Intake.Start | main.py:33 | before the first message every user is awaiting a name, no entry is a placeholder, and the log is what the file already held |
| Intake.Turn | main.py:36-74 | one call adds at most the sender's key and removes none, leaves the sender named, keeps an existing name, leaves every other entry alone, and keeps the old log as a prefix |
| Intake.TurnCapturesName | main.py:41-47 | a sender with no entry or a `None` entry gets the stripped text as name and the greeting for it; the model is not called and the log is unchanged |
| Intake.Chat | main.py:49-72 | a chat turn leaves `user_names` as it is and only appends to the log |
| Intake.TurnChats | main.py:49-72 | a named sender's stripped message is the prompt, the reply is the model text or the diagnostic, `user_names` is unchanged, and the log gets the user entry then the bot entry, each only when its write succeeds |
| Intake.TurnLogsExchange | main.py:53-72 | with both writes working the log grows by exactly the user entry followed by the bot entry |
| Intake.TurnReplyIgnoresLogFailures | main.py:53-74 | reply, prompt and `user_names` are the same whatever the outcome of the two writes |
| Intake.TurnFailedWriteAddsNothing | main.py:53-74 | a failed write adds nothing to the log and does not stop the other write |
| Intake.TurnKeepsNoPlaceholders | main.py:41-45 | if no entry was `None` before a call, none is after it |
| Intake.BlankNameCounts | main.py:38-49 | a whitespace-only first message makes the name `""`, and the user's next message goes to the model |
| Intake.Run | main.py:78-84 | the handler applied, in order, to each text message that is not a command never removes an entry, and leaves every sender with one |
| Intake.RunNames | main.py:41-49 | after any sequence of calls, an existing name is kept, an unnamed user who wrote is named by the stripped first message, and a user who did not write keeps their entry or absence |
| Intake.RunFromStartNames | main.py:33-45 | from an empty `user_names`, the users with an entry are exactly those who wrote, each named by their stripped first message |
| Intake.RunKeepsNoPlaceholders | main.py:41-45 | no sequence of calls leaves a `None` entry behind |
| Intake.RunLogAppendOnly | main.py:53-74 | the earlier contents of the log survive every sequence of calls, since the file is opened for appending |
| Intake.FirstContactsLogNothing | main.py:41-47 | first messages from distinct unnamed users log nothing |
| Intake.DuplicateDeliveryLoggedTwice | main.py:49-72 | the same message delivered twice to a named user is not deduplicated: the model is asked twice with the stripped text, each delivery gets its own reply, and user and bot entries are logged for each, in order |
| Intake.HelloIsName | main.py:41-47 | user 42's first message "Hello" becomes the name, is greeted, and logs nothing |
| Intake.QuestionIsAnswered | main.py:49-72 | user 42, named "Hello", asks "What is 2+2?"; with the model answering "4", the reply is "4", one exchange is logged and the names are unchanged |
| Intake.ModelFailureIsLogged | main.py:60-72 | on a model failure the reply is the diagnostic, and that diagnostic is what the bot entry records |
| ChatBot.Bot.constructor | main.py:33 | the bot starts with no users and the existing log |
| ChatBot.Bot.Handle | main.py:36-74 | updates `userNames` and `log` in place exactly as `Turn` says, and states the name capture, the frame on other users, the prompt, the reply and the log growth directly |

## Left out

- The Flask liveness route `home` and `run_flask` (main.py:21-30): HTTP plumbing with no effect on the handler.
- Telegram transport: `ApplicationBuilder`, handler registration, polling and the `asyncio`/`nest_asyncio`/thread set-up (main.py:4-7, 19, 77-86). A failing `reply_text` (main.py:46, 67) would raise out of the handler and skip the second log write; the model assumes sending succeeds.
- Only text messages that are not commands reach `chat_ai` (main.py:78); commands (such as the `/start` a client sends first) and other updates are not events of the model; an edited message would raise at main.py:37 before any state change.
- Concurrency: handlers run one at a time here; interleaving of two users' turns at the `await` points is not modelled.
- Gemini configuration and the call itself (main.py:15-16, 61): foreign code, represented only by its result.
- Environment variables (main.py:11-12, 29): configuration input.
- The `print` calls (main.py:50, 57, 74): console output with no effect on state or reply.
- Real file I/O: `messages.txt` is a string of characters, not UTF-8 bytes; a failed write leaves it unchanged, and partial writes are not modelled.
- PyText.IsSpace: follows the whitespace set of Python 3's `str.isspace()` for the current Unicode database; changes in later Unicode versions are not tracked.
