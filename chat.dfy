/** `ChatComponent`: an append-only message log, the input box and a loading
    flag. The asynchronous reply is split into the send step and the two
    completion steps of the subscription. */
module Chat {
  import opened Common

  datatype Sender = User | Bot
  datatype Message = Message(text: string, sender: Sender)

  const Greeting: string := "Olá! Como posso te ajudar hoje?"
  const Apology: string := "Desculpe, não consegui processar sua mensagem. Tente novamente."

  /** The characters `String.prototype.trim` removes: ECMAScript WhiteSpace and LineTerminator. */
  predicate IsWhitespace(c: char)
  {
    c == '\t' || c == '\n' || c == '\U{000B}' || c == '\U{000C}' || c == '\r' || c == ' ' ||
    c == '\U{00A0}' || c == '\U{1680}' || ('\U{2000}' <= c <= '\U{200A}') ||
    c == '\U{2028}' || c == '\U{2029}' || c == '\U{202F}' || c == '\U{205F}' ||
    c == '\U{3000}' || c == '\U{FEFF}'
  }

  /** Empty or whitespace only. */
  predicate IsBlank(s: string)
  {
    forall i :: 0 <= i < |s| ==> IsWhitespace(s[i])
  }

  /** The text without its leading whitespace. */
  function TrimStart(s: string): (r: string)
    ensures |r| <= |s| && r == s[|s| - |r|..]
    ensures r != [] ==> !IsWhitespace(r[0])
    ensures forall i :: 0 <= i < |s| - |r| ==> IsWhitespace(s[i])
  {
    if s != [] && IsWhitespace(s[0]) then TrimStart(s[1..]) else s
  }

  /** The text without its trailing whitespace. */
  function TrimEnd(s: string): (r: string)
    ensures |r| <= |s| && r == s[..|r|]
    ensures r != [] ==> !IsWhitespace(r[|r| - 1])
    ensures forall i :: |r| <= i < |s| ==> IsWhitespace(s[i])
  {
    if s != [] && IsWhitespace(s[|s| - 1]) then TrimEnd(s[..|s| - 1]) else s
  }

  /** `String.prototype.trim`: a piece of the text that neither starts nor ends with whitespace. */
  function Trim(s: string): (r: string)
    ensures |r| <= |TrimStart(s)| <= |s| && r == TrimStart(s)[..|r|]
    ensures r != [] ==> !IsWhitespace(r[0]) && !IsWhitespace(r[|r| - 1])
    ensures forall i :: |r| <= i < |TrimStart(s)| ==> IsWhitespace(TrimStart(s)[i])
  {
    TrimEnd(TrimStart(s))
  }

  lemma TrimStartEmptyIff(s: string)
    ensures TrimStart(s) == [] <==> IsBlank(s)
  {
    var r := TrimStart(s);
    if r != [] {
      assert r[0] == s[|s| - |r|];
    }
  }

  /** Trimming the end stops at a leading non-whitespace character at the latest. */
  lemma {:induction false} TrimEndKeepsFirst(s: string)
    requires s != [] && !IsWhitespace(s[0])
    ensures TrimEnd(s) != []
  {
    if IsWhitespace(s[|s| - 1]) {
      TrimEndKeepsFirst(s[..|s| - 1]);
    }
  }

  /** `!s.trim()` holds exactly for the empty and the whitespace-only strings. */
  lemma TrimEmptyIff(s: string)
    ensures Trim(s) == "" <==> IsBlank(s)
  {
    TrimStartEmptyIff(s);
    if TrimStart(s) != [] {
      TrimEndKeepsFirst(TrimStart(s));
    }
  }

  class ChatComponent {
    var messages: seq<Message>
    var currentMessage: string
    var isLoading: bool

    constructor ()
      ensures messages == [] && currentMessage == "" && !isLoading
    {
      messages := [];
      currentMessage := "";
      isLoading := false;
    }

    method NgOnInit()
      modifies this
      ensures messages == old(messages) + [Message(Greeting, Bot)]
      ensures currentMessage == old(currentMessage) && isLoading == old(isLoading)
    {
      messages := messages + [Message(Greeting, Bot)];
    }

    /** The send step. It returns the text handed to the chat service, if any. */
    method SendMessage() returns (sent: Option<string>)
      modifies this
      ensures IsBlank(old(currentMessage)) ==>
                sent == None && messages == old(messages) &&
                currentMessage == old(currentMessage) && isLoading == old(isLoading)
      ensures !IsBlank(old(currentMessage)) ==>
                sent == Some(old(currentMessage)) &&
                messages == old(messages) + [Message(old(currentMessage), User)] &&
                currentMessage == "" && isLoading
    {
      TrimEmptyIff(currentMessage);
      if Trim(currentMessage) == "" {
        return None;
      }
      messages := messages + [Message(currentMessage, User)];
      var userMsg := currentMessage;
      currentMessage := "";
      isLoading := true;
      sent := Some(userMsg);
    }

    /** The subscription's `next` handler. */
    method OnReply(reply: string)
      modifies this
      ensures messages == old(messages) + [Message(reply, Bot)]
      ensures currentMessage == old(currentMessage) && !isLoading
    {
      messages := messages + [Message(reply, Bot)];
      isLoading := false;
    }

    /** The subscription's `error` handler. */
    method OnError()
      modifies this
      ensures messages == old(messages) + [Message(Apology, Bot)]
      ensures currentMessage == old(currentMessage) && !isLoading
    {
      messages := messages + [Message(Apology, Bot)];
      isLoading := false;
    }
  }

  /** A whole exchange (send, then a reply or an error) only ever extends the log:
      what was there stays, in place, and a completed exchange adds the user's
      message and the bot's answer and ends loading. */
  method Exchange(chat: ChatComponent, reply: Option<string>)
    modifies chat
    ensures old(chat.messages) <= chat.messages
    ensures IsBlank(old(chat.currentMessage)) ==> chat.messages == old(chat.messages)
    ensures !IsBlank(old(chat.currentMessage)) ==>
              |chat.messages| == |old(chat.messages)| + 2 && !chat.isLoading &&
              chat.messages[|chat.messages| - 2] == Message(old(chat.currentMessage), User)
  {
    var sent := chat.SendMessage();
    if sent.Some? {
      match reply
      case Some(text) => chat.OnReply(text);
      case None => chat.OnError();
    }
  }
}
