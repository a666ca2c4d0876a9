/**
 * The texts `chat_ai` sends back to the user and appends to `messages.txt`.
 * Each is a fixed head and tail around one value; `Between` takes a text apart
 * again, and every text function promises that its text gives back the value
 * it was built from.
 */
module Replies {
  import opened Options

  /** What the call to the language model produced: its text, or the text of the exception it raised. */
  datatype AiResult = Ok(text: string) | Err(msg: string)

  const GreetingHead: string := "تشرفت بمعرفتك يا "
  const GreetingTail: string := "! \U{1F31F}\nاكتبلي أي سؤال تحب."
  const DiagnosticHead: string := "\U{26A0}\U{FE0F} خطأ في الاتصال بالذكاء الاصطناعي: "
  const UserMark: string := ":\n  \U{1F9E0} User: "
  const BotHead: string := "  \U{1F916} Bot: "

  /** The part of `s` between `head` and `tail`, when `s` has that shape. */
  function Between(s: string, head: string, tail: string): (m: Option<string>)
    ensures m.Some? <==> |head| + |tail| <= |s| && s[..|head|] == head && s[|s| - |tail|..] == tail
    ensures m.Some? ==> s == head + m.value + tail
  {
    if |head| + |tail| <= |s| && s[..|head|] == head && s[|s| - |tail|..] == tail then
      var m := s[|head|..|s| - |tail|];
      assert s == s[..|head|] + m + s[|s| - |tail|..];
      Some(m)
    else
      None
  }

  lemma BetweenRoundTrip(head: string, m: string, tail: string)
    ensures Between(head + m + tail, head, tail) == Some(m)
  {
    var s := head + m + tail;
    assert s[..|head|] == head;
    assert s[|s| - |tail|..] == tail;
    assert s[|head|..|s| - |tail|] == m;
  }

  /** The reply to the message that is taken as the user's name: the name echoed between the fixed head and tail. */
  function Greeting(name: string): (r: string)
    ensures Between(r, GreetingHead, GreetingTail) == Some(name)
  {
    BetweenRoundTrip(GreetingHead, name, GreetingTail);
    GreetingHead + name + GreetingTail
  }

  /** Two different names never receive the same greeting. */
  lemma GreetingInjective(a: string, b: string)
    ensures Greeting(a) == Greeting(b) ==> a == b
  {
  }

  /**
   * The reply to a later message: the model's text as it is, or, when the
   * call failed, a non-empty diagnostic from which the error text is read back.
   */
  function ChatReply(ai: AiResult): (r: string)
    ensures ai.Ok? ==> r == ai.text
    ensures ai.Err? ==> r != [] && Between(r, DiagnosticHead, []) == Some(ai.msg)
  {
    match ai
    case Ok(text) => text
    case Err(msg) =>
      BetweenRoundTrip(DiagnosticHead, msg, []);
      assert DiagnosticHead + msg + [] == DiagnosticHead + msg;
      DiagnosticHead + msg
  }

  /** The first write of a chat turn; knowing the user name, the message is read back from it. */
  function UserEntry(username: string, message: string): (r: string)
    ensures Between(r, username + UserMark, "\n") == Some(message)
  {
    BetweenRoundTrip(username + UserMark, message, "\n");
    username + UserMark + message + "\n"
  }

  /** The second write of a chat turn, ending the exchange with a blank line; the reply is read back from it. */
  function BotEntry(reply: string): (r: string)
    ensures Between(r, BotHead, "\n\n") == Some(reply)
  {
    BetweenRoundTrip(BotHead, reply, "\n\n");
    BotHead + reply + "\n\n"
  }
}
