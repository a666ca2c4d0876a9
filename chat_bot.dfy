/**
 * `chat_ai` as the code runs it: the module-level dict `user_names` and the
 * file `messages.txt` are fields that each call updates in place.
 */
module ChatBot {
  import opened Options
  import opened PyText
  import opened Replies
  import opened Intake

  class Bot {
    /** `user_names`: user id to captured name, `None` while the name is being taken. */
    var userNames: map<int, Option<string>>
    /** The text of `messages.txt`, which is only ever opened for appending. */
    var log: string

    /** Process start: `user_names = {}`; the log file keeps what earlier runs wrote. */
    constructor (existingLog: string)
      ensures userNames == map[] && log == existingLog
      ensures NoPlaceholders(userNames)
    {
      userNames := map[];
      log := existingLog;
    }

    ghost function Snapshot(): State
      reads this
    {
      State(userNames, log)
    }

    /**
     * Handle one message `text` from `userId`. `aiResult` is what the model
     * call produces; the ghost `prompt` records, for the contract only, the
     * text the model is asked (`None` when it is not called). `logOk` and
     * `replyLogOk` say whether the two writes to the log file succeed.
     */
    method Handle(userId: int, text: string, aiResult: AiResult, logOk: bool, replyLogOk: bool)
      returns (reply: string, ghost prompt: Option<string>)
      modifies this
      ensures Outcome(Snapshot(), reply, prompt)
           == Turn(old(Snapshot()), Event(userId, text, aiResult, logOk, replyLogOk))
      // only the sender's entry is written, at most one key is added, none removed
      ensures userNames.Keys == old(userNames).Keys + {userId}
      ensures forall u :: u in old(userNames) && u != userId ==> userNames[u] == old(userNames)[u]
      ensures userNames[userId].Some?
      ensures NoPlaceholders(old(userNames)) ==> NoPlaceholders(userNames)
      // the first message is the name
      ensures AwaitingName(old(userNames), userId) ==>
                && userNames[userId] == Some(Strip(text))
                && reply == Greeting(Strip(text)) && prompt == None
                && log == old(log)
      // later messages go to the model and are logged
      ensures !AwaitingName(old(userNames), userId) ==>
                && userNames == old(userNames)
                && prompt == Some(Strip(text)) && reply == ChatReply(aiResult)
                && log == Append(Append(old(log), logOk, UserEntry(old(userNames)[userId].value, Strip(text))), replyLogOk, BotEntry(reply))
    {
      ghost var before, event := Snapshot(), Event(userId, text, aiResult, logOk, replyLogOk);
      if NoPlaceholders(userNames) {
        TurnKeepsNoPlaceholders(before, event);
      }
      var message := Strip(text);
      if userId !in userNames {
        userNames := userNames[userId := None];
      }
      if userNames[userId].None? {
        userNames := userNames[userId := Some(message)];
        reply, prompt := Greeting(message), None;
        TurnCapturesName(before, event);
        return;
      }
      var username := userNames[userId].value;
      if logOk {
        log := log + UserEntry(username, message);
      }
      prompt := Some(message);
      reply := ChatReply(aiResult);
      if replyLogOk {
        log := log + BotEntry(reply);
      }
      TurnChats(before, event);
    }
  }
}
