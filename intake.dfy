/**
 * The behaviour of `chat_ai` on values: one inbound message takes the pair
 * (`user_names`, contents of `messages.txt`) to a new pair and a reply.
 * `Turn` is one call, `Run` a sequence of calls handled one after another.
 */
module Intake {
  import opened Options
  import opened PyText
  import opened Replies

  /** `user_names` and the text of `messages.txt`. */
  datatype State = State(names: map<int, Option<string>>, log: string)

  /**
   * One inbound message and the outcome of everything outside the handler:
   * what the model call produced, and whether each of the two writes to the
   * log file succeeded.
   */
  datatype Event = Event(userId: int, text: string, ai: AiResult, logOk: bool, replyLogOk: bool)

  /** The new state, the reply sent to the user, and the text given to the model (`None` when it is not called). */
  datatype Outcome = Outcome(state: State, reply: string, prompt: Option<string>)

  /** The next message from `u` is taken as the name: no entry yet, or the `None` placeholder. */
  predicate AwaitingName(names: map<int, Option<string>>, u: int)
  {
    u !in names || names[u].None?
  }

  /** No entry holds the `None` placeholder. */
  predicate NoPlaceholders(names: map<int, Option<string>>)
  {
    forall u :: u in names ==> names[u].Some?
  }

  /** The state before the first message: no users, and whatever `messages.txt` already held. */
  function Start(existingLog: string): (s: State)
    ensures forall u :: AwaitingName(s.names, u)
    ensures NoPlaceholders(s.names) && s.log == existingLog
  {
    State(map[], existingLog)
  }

  /**
   * One call of `chat_ai`. Whatever the message and the outcome of the model
   * call and the writes: the sender, and only the sender, may gain an entry;
   * the sender's entry is a name afterwards; a name once set is kept; every
   * other entry is untouched; the log only grows.
   */
  function Turn(s: State, e: Event): (r: Outcome)
    ensures r.state.names.Keys == s.names.Keys + {e.userId}
    ensures r.state.names[e.userId].Some?
    ensures !AwaitingName(s.names, e.userId) ==> r.state.names[e.userId] == s.names[e.userId]
    ensures forall u :: u in s.names && u != e.userId ==> r.state.names[u] == s.names[u]
    ensures s.log <= r.state.log
  {
    var message := Strip(e.text);
    var names := if e.userId !in s.names then s.names[e.userId := None] else s.names;
    if names[e.userId].None? then
      Outcome(State(names[e.userId := Some(message)], s.log), Greeting(message), None)
    else
      Chat(State(names, s.log), names[e.userId].value, message, e)
  }

  /** The chat half of `chat_ai` (main.py:49-72): a message from the user named `username`, already stripped into `message`. */
  function Chat(s: State, username: string, message: string, e: Event): (r: Outcome)
    ensures r.state.names == s.names && s.log <= r.state.log
  {
    var log := Append(s.log, e.logOk, UserEntry(username, message));
    var reply := ChatReply(e.ai);
    Outcome(State(s.names, Append(log, e.replyLogOk, BotEntry(reply))), reply, Some(message))
  }

  /**
   * The messages of `events` handled in order, starting from `s`: no entry is
   * ever removed, and every user who sent a message has one afterwards.
   */
  function Run(s: State, events: seq<Event>): (r: State)
    ensures s.names.Keys <= r.names.Keys
    ensures forall i :: 0 <= i < |events| ==> events[i].userId in r.names
    decreases |events|
  {
    if events == [] then s else Run(Turn(s, events[0]).state, events[1..])
  }

  /** The text of the first message from `u` in `events`, if any. */
  function FirstText(events: seq<Event>, u: int): Option<string>
    decreases |events|
  {
    if events == [] then None
    else if events[0].userId == u then Some(events[0].text)
    else FirstText(events[1..], u)
  }

  /** The log after one attempt to append `text` to it: the whole text if the write succeeds, nothing otherwise. */
  function Append(log: string, ok: bool, text: string): string
  {
    if ok then log + text else log
  }

  // ---------------------------------------------------------------------
  // One call

  /**
   * A message from a user without a name is the name: the entry becomes the
   * stripped text, the reply greets that name, the model is not called and
   * nothing is logged.
   */
  lemma TurnCapturesName(s: State, e: Event)
    requires AwaitingName(s.names, e.userId)
    ensures Turn(s, e).state == State(s.names[e.userId := Some(Strip(e.text))], s.log)
    ensures Turn(s, e).reply == Greeting(Strip(e.text))
    ensures Turn(s, e).prompt == None
  {
  }

  /**
   * A message from a named user goes to the model stripped; the reply is the
   * model's text or the diagnostic; `user_names` does not change; the log
   * gets the user entry, then the bot entry, each only if its write works.
   */
  lemma TurnChats(s: State, e: Event)
    requires !AwaitingName(s.names, e.userId)
    ensures Turn(s, e).prompt == Some(Strip(e.text))
    ensures Turn(s, e).reply == ChatReply(e.ai)
    ensures Turn(s, e).state.names == s.names
    ensures Turn(s, e).state.log
         == Append(Append(s.log, e.logOk, UserEntry(s.names[e.userId].value, Strip(e.text))), e.replyLogOk, BotEntry(ChatReply(e.ai)))
  {
    assert Turn(s, e) == Chat(s, s.names[e.userId].value, Strip(e.text), e);
  }

  /** With both writes working, a chat turn appends the user entry and then the bot entry, and nothing else. */
  lemma TurnLogsExchange(s: State, e: Event)
    requires !AwaitingName(s.names, e.userId) && e.logOk && e.replyLogOk
    ensures Turn(s, e).state.log
         == s.log + UserEntry(s.names[e.userId].value, Strip(e.text)) + BotEntry(ChatReply(e.ai))
  {
    TurnChats(s, e);
  }

  /** Whether the writes succeed changes neither the reply, nor the prompt, nor `user_names`. */
  lemma TurnReplyIgnoresLogFailures(s: State, e: Event, logOk: bool, replyLogOk: bool)
    ensures var e' := e.(logOk := logOk, replyLogOk := replyLogOk);
            && Turn(s, e').reply == Turn(s, e).reply
            && Turn(s, e').prompt == Turn(s, e).prompt
            && Turn(s, e').state.names == Turn(s, e).state.names
  {
  }

  /** A failed write adds nothing and stops nothing: the other write still adds its entry. */
  lemma TurnFailedWriteAddsNothing(s: State, e: Event)
    requires !AwaitingName(s.names, e.userId)
    ensures !e.logOk && !e.replyLogOk ==> Turn(s, e).state.log == s.log
    ensures !e.logOk && e.replyLogOk ==> Turn(s, e).state.log == s.log + BotEntry(ChatReply(e.ai))
    ensures e.logOk && !e.replyLogOk ==> Turn(s, e).state.log == s.log + UserEntry(s.names[e.userId].value, Strip(e.text))
  {
    TurnChats(s, e);
  }

  /** After any call no entry holds the placeholder, if none did before. */
  lemma TurnKeepsNoPlaceholders(s: State, e: Event)
    requires NoPlaceholders(s.names)
    ensures NoPlaceholders(Turn(s, e).state.names)
  {
  }

  /**
   * A whitespace-only first message is accepted: the name becomes "" and,
   * "" not being the placeholder, the user's next message goes to the model.
   */
  lemma BlankNameCounts(s: State, e: Event, next: Event)
    requires AwaitingName(s.names, e.userId) && AllSpace(e.text)
    requires next.userId == e.userId
    ensures Turn(s, e).state.names[e.userId] == Some("")
    ensures Turn(Turn(s, e).state, next).prompt == Some(Strip(next.text))
  {
    StripEmptyIffBlank(e.text);
  }

  // ---------------------------------------------------------------------
  // Many calls

  /**
   * After a run, a user named before keeps that name; a user without a name
   * who sent messages is named by the stripped text of the first of them; a
   * user who sent nothing keeps the entry (or absence of one) it had.
   */
  lemma {:induction false} RunNames(s: State, events: seq<Event>, u: int)
    ensures !AwaitingName(s.names, u) ==> u in Run(s, events).names && Run(s, events).names[u] == s.names[u]
    ensures AwaitingName(s.names, u) && FirstText(events, u).Some? ==>
              u in Run(s, events).names && Run(s, events).names[u] == Some(Strip(FirstText(events, u).value))
    ensures FirstText(events, u).None? ==>
              (u in Run(s, events).names <==> u in s.names) &&
              (u in s.names ==> Run(s, events).names[u] == s.names[u])
    decreases |events|
  {
    if events != [] {
      var t := Turn(s, events[0]).state;
      RunNames(t, events[1..], u);
      if events[0].userId == u {
        assert !AwaitingName(t.names, u);
        if AwaitingName(s.names, u) {
          TurnCapturesName(s, events[0]);
        }
      }
    }
  }

  /** From the start, the users with an entry are exactly those who wrote, each named by their first message. */
  lemma RunFromStartNames(existingLog: string, events: seq<Event>, u: int)
    ensures u in Run(Start(existingLog), events).names <==> FirstText(events, u).Some?
    ensures FirstText(events, u).Some? ==>
              Run(Start(existingLog), events).names[u] == Some(Strip(FirstText(events, u).value))
  {
    RunNames(Start(existingLog), events, u);
  }

  /** No run leaves a placeholder behind. */
  lemma {:induction false} RunKeepsNoPlaceholders(s: State, events: seq<Event>)
    requires NoPlaceholders(s.names)
    ensures NoPlaceholders(Run(s, events).names)
    decreases |events|
  {
    if events != [] {
      TurnKeepsNoPlaceholders(s, events[0]);
      RunKeepsNoPlaceholders(Turn(s, events[0]).state, events[1..]);
    }
  }

  /** The log file is only ever appended to: its earlier contents survive every run. */
  lemma {:induction false} RunLogAppendOnly(s: State, events: seq<Event>)
    ensures s.log <= Run(s, events).log
    decreases |events|
  {
    if events != [] {
      RunLogAppendOnly(Turn(s, events[0]).state, events[1..]);
    }
  }

  /** Messages from distinct users none of whom has a name, each being a first contact, write nothing to the log. */
  lemma {:induction false} FirstContactsLogNothing(s: State, events: seq<Event>)
    requires forall i :: 0 <= i < |events| ==> AwaitingName(s.names, events[i].userId)
    requires forall i, j :: 0 <= i < j < |events| ==> events[i].userId != events[j].userId
    ensures Run(s, events).log == s.log
    decreases |events|
  {
    if events != [] {
      var t := Turn(s, events[0]).state;
      TurnCapturesName(s, events[0]);
      assert forall i :: 0 <= i < |events[1..]| ==> events[1..][i].userId != events[0].userId by {
        forall i | 0 <= i < |events[1..]| ensures events[1..][i].userId != events[0].userId {
          assert events[1..][i] == events[i + 1];
        }
      }
      FirstContactsLogNothing(t, events[1..]);
    }
  }

  /**
   * Delivering the same message twice to a named user is not deduplicated:
   * the model is asked twice with the same stripped text, each delivery is
   * answered with its own reply, and, with the writes working, each exchange
   * is logged in turn.
   */
  lemma DuplicateDeliveryLoggedTwice(s: State, e: Event, e2: Event)
    requires !AwaitingName(s.names, e.userId) && e.logOk && e.replyLogOk
    requires e2.userId == e.userId && e2.text == e.text && e2.logOk && e2.replyLogOk
    ensures var t := Turn(s, e);
            var t2 := Turn(t.state, e2);
            && t.prompt == Some(Strip(e.text)) && t2.prompt == Some(Strip(e.text))
            && t.reply == ChatReply(e.ai) && t2.reply == ChatReply(e2.ai)
            && t2.state == Run(s, [e, e2])
            && var user := UserEntry(s.names[e.userId].value, Strip(e.text));
               t2.state.log == s.log + user + BotEntry(ChatReply(e.ai)) + user + BotEntry(ChatReply(e2.ai))
  {
    var t := Turn(s, e).state;
    TurnChats(s, e);
    TurnChats(t, e2);
    TurnLogsExchange(s, e);
    TurnLogsExchange(t, e2);
    assert [e, e2][1..] == [e2];
    assert [e2][1..] == [];
    assert Run(s, [e, e2]) == Run(t, [e2]) == Turn(t, e2).state;
  }

  /** User 42's first message "Hello" is taken as the name; nothing is logged. */
  lemma HelloIsName(existingLog: string)
    ensures var t := Turn(Start(existingLog), Event(42, "Hello", Ok("unused"), true, true));
            && t.reply == Greeting("Hello") && t.prompt == None
            && t.state == State(map[42 := Some("Hello")], existingLog)
  {
    StripKeepsUnpadded("Hello");
    var s0 := Start(existingLog);
    TurnCapturesName(s0, Event(42, "Hello", Ok("unused"), true, true));
    assert s0.names[42 := Some("Hello")] == map[42 := Some("Hello")];
  }

  /** User 42, named "Hello", asks "What is 2+2?" and the model answers "4": the reply is "4" and one exchange is logged. */
  lemma QuestionIsAnswered(existingLog: string)
    ensures var t := Turn(State(map[42 := Some("Hello")], existingLog), Event(42, "What is 2+2?", Ok("4"), true, true));
            && t.prompt == Some("What is 2+2?") && t.reply == "4"
            && t.state == State(map[42 := Some("Hello")], existingLog + UserEntry("Hello", "What is 2+2?") + BotEntry("4"))
  {
    var s := State(map[42 := Some("Hello")], existingLog);
    var e := Event(42, "What is 2+2?", Ok("4"), true, true);
    StripKeepsUnpadded(e.text);
    TurnChats(s, e);
  }

  /** When the model call fails, the reply is the diagnostic, and it is what the log records as the bot's reply. */
  lemma ModelFailureIsLogged(s: State, e: Event)
    requires !AwaitingName(s.names, e.userId) && e.ai.Err?
    ensures Turn(s, e).reply == DiagnosticHead + e.ai.msg
    ensures Turn(s, e).state.log
         == Append(Append(s.log, e.logOk, UserEntry(s.names[e.userId].value, Strip(e.text))), e.replyLogOk, BotEntry(DiagnosticHead + e.ai.msg))
  {
    TurnChats(s, e);
  }
}
