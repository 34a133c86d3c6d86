// The local Telegram bot (testing/telegram_api.py): the command router that
// picks the one reply to an incoming message, the request bodies of
// sendMessage and getUpdates, and the long-polling loop's offset.

module TelegramBot {
  import opened Optional
  import opened PyText

  /** The JSON values the request bodies hold. */
  datatype Json = JInt(i: int) | JStr(s: string) | JNull | JStrings(items: seq<string>)

  /** The sender of a message; None for a field the update leaves out. */
  datatype User = User(id: Option<int>, username: Option<string>, firstName: Option<string>)

  /** The fields of an incoming message the bot reads; a missing text is
      the empty string, a missing chat or message id is None. */
  datatype Message = Message(chatId: Option<int>, text: string, messageId: Option<int>, sender: User)

  /** One call of send_message. */
  datatype Send = Send(chatId: Option<int>, text: string, parseMode: Option<string>, replyTo: Option<int>)

  datatype Update = Update(updateId: int, message: Option<Message>, editedMessage: Option<Message>)

  /** The decoded getUpdates answer. */
  datatype Updates = Updates(ok: bool, result: seq<Update>)

  // -----------------------------------------------------------------------
  // Texts
  // -----------------------------------------------------------------------

  const WelcomeText: string :=
    "\U{1F44B} Welcome! I'm your Telegram bot running on localhost!\n\nAvailable commands:\n/start - Start the bot\n"
    + "/help - Show help\n/info - Get chat info\n\nSend me any message and I'll echo it back!"

  const HelpText: string :=
    "\n\U{1F916} **Bot Commands:**\n\n/start - Start the bot\n/help - Show this help message\n"
    + "/info - Get your chat information\n/echo <text> - Echo your message\n\n**Features:**\n"
    + "\U{2705} Receive and send messages\n\U{2705} Reply to messages\n\U{2705} Handle commands\n"
    + "\U{2705} Running on localhost with polling\n\nNote: Voice/video calls are not supported by Bot API.\n        "

  const UsageText: string := "Usage: /echo <your message>"
  const EchoPrefix: string := "\U{1F50A} Echo: "
  const SaidPrefix: string := "\U{2728} You said: "
  const Markdown: string := "Markdown"

  /** Python's str() of an optional integer. */
  function Shown(n: Option<int>): string {
    if n.Some? then IntText(n.value) else "None"
  }

  /** A field read with .get(key, 'N/A'). */
  function OrNA(s: Option<string>): string {
    if s.Some? then s.value else "N/A"
  }

  function InfoText(m: Message): string {
    "\n\U{1F4CA} **Chat Information:**\n\nChat ID: `" + Shown(m.chatId) + "`\nMessage ID: " + Shown(m.messageId)
    + "\nUser ID: " + Shown(m.sender.id) + "\nUsername: @" + OrNA(m.sender.username)
    + "\nFirst Name: " + OrNA(m.sender.firstName) + "\n        "
  }

  // -----------------------------------------------------------------------
  // process_message
  // -----------------------------------------------------------------------

  /** The argument of /echo: every "/echo" removed, then trimmed. */
  function EchoArgument(text: string): string {
    Strip(RemoveAll(text, "/echo"))
  }

  /** The one send_message call process_message makes, if any. */
  function ProcessMessage(m: Message): (r: Option<Send>)
    ensures r.Some? ==> r.value.chatId == m.chatId
  {
    if StartsWith(m.text, "/start") then Some(Send(m.chatId, WelcomeText, None, None))
    else if StartsWith(m.text, "/help") then Some(Send(m.chatId, HelpText, Some(Markdown), None))
    else if StartsWith(m.text, "/info") then Some(Send(m.chatId, InfoText(m), Some(Markdown), None))
    else if StartsWith(m.text, "/echo") then
      var arg := EchoArgument(m.text);
      if arg != "" then Some(Send(m.chatId, EchoPrefix + arg, None, m.messageId))
      else Some(Send(m.chatId, UsageText, None, None))
    else if m.text != "" then Some(Send(m.chatId, SaidPrefix + m.text, None, m.messageId))
    else None
  }

  /** Every message is answered, in its own chat, except one without text. */
  lemma AnsweredUnlessEmpty(m: Message)
    ensures ProcessMessage(m).None? <==> m.text == ""
  {
    if m.text == "" {
      assert !StartsWith(m.text, "/start") && !StartsWith(m.text, "/help");
      assert !StartsWith(m.text, "/info") && !StartsWith(m.text, "/echo");
    }
  }

  /** Only /help and /info answer in Markdown; only /echo with an argument
      and plain text answer as a reply to the message. */
  lemma ReplyShapes(m: Message)
    requires ProcessMessage(m).Some?
    ensures var s := ProcessMessage(m).value;
            (s.parseMode.Some? <==> StartsWith(m.text, "/help") || (StartsWith(m.text, "/info") && !StartsWith(m.text, "/start")))
            && (s.replyTo.Some? ==> s.replyTo == m.messageId)
  {
    if StartsWith(m.text, "/help") {
      assert !StartsWith(m.text, "/start") by {
        assert m.text[1] == 'h';
        assert "/start"[1] == 's';
      }
    }
  }

  lemma CommandLetter(text: string, command: string, other: string)
    requires StartsWith(text, command) && |command| >= 2 && |other| >= 2 && command[1] != other[1]
    ensures !StartsWith(text, other)
  {
    assert text[1] == command[1];
  }

  lemma {:induction false} RemoveAllWithoutSlash(s: string, pat: string)
    requires pat != [] && pat[0] == '/' && '/' !in s
    ensures RemoveAll(s, pat) == s
  {
    if s != [] {
      assert !StartsWith(s, pat) by {
        assert s[0] != pat[0];
      }
      RemoveAllWithoutSlash(s[1..], pat);
    }
  }

  /** "/echo" followed by an argument without a slash echoes the trimmed
      argument as a reply, or shows the usage when it is blank. */
  lemma EchoCommand(chatId: Option<int>, arg: string, messageId: Option<int>, sender: User)
    requires '/' !in arg
    ensures ProcessMessage(Message(chatId, "/echo" + arg, messageId, sender))
            == Some(if Strip(arg) == "" then Send(chatId, UsageText, None, None)
                    else Send(chatId, EchoPrefix + Strip(arg), None, messageId))
  {
    var text := "/echo" + arg;
    assert StartsWith(text, "/echo") && text[5..] == arg;
    CommandLetter(text, "/echo", "/start");
    CommandLetter(text, "/echo", "/help");
    CommandLetter(text, "/echo", "/info");
    RemoveAllWithoutSlash(arg, "/echo");
    assert RemoveAll(text, "/echo") == arg;
  }

  /** Commands are matched by prefix: any text starting "/help", such as
      "/helpme", gets the help text in Markdown. */
  lemma PrefixDispatch(m: Message)
    ensures StartsWith(m.text, "/help") ==> ProcessMessage(m) == Some(Send(m.chatId, HelpText, Some(Markdown), None))
  {
    if StartsWith(m.text, "/help") {
      CommandLetter(m.text, "/help", "/start");
    }
  }

  /** Text that is not a command is echoed back as a reply. */
  lemma PlainTextEchoed(m: Message)
    requires m.text != "" && m.text[0] != '/'
    ensures ProcessMessage(m) == Some(Send(m.chatId, SaidPrefix + m.text, None, m.messageId))
  {
    assert !StartsWith(m.text, "/start") && !StartsWith(m.text, "/help") by {
      assert "/start"[0] == '/' && "/help"[0] == '/';
    }
    assert !StartsWith(m.text, "/info") && !StartsWith(m.text, "/echo") by {
      assert "/info"[0] == '/' && "/echo"[0] == '/';
    }
  }

  // -----------------------------------------------------------------------
  // Request bodies
  // -----------------------------------------------------------------------

  function IdJson(n: Option<int>): Json {
    if n.Some? then JInt(n.value) else JNull
  }

  /** The parts of a sendMessage body, as the Bot API reads them back. */
  function ReadSendBody(body: map<string, Json>): Option<Send> {
    if "chat_id" !in body || "text" !in body || !body["text"].JStr? then None
    else
      var chat := body["chat_id"];
      if !(chat.JInt? || chat.JNull?) then None
      else
        var parseMode := if "parse_mode" in body && body["parse_mode"].JStr? then Some(body["parse_mode"].s) else None;
        var replyTo := if "reply_to_message_id" in body && body["reply_to_message_id"].JInt?
                       then Some(body["reply_to_message_id"].i) else None;
        Some(Send(if chat.JInt? then Some(chat.i) else None, body["text"].s, parseMode, replyTo))
  }

  /** A falsy optional argument is left out of the body. */
  function Keep(s: Option<string>): Option<string> {
    if Truthy(s) then s else None
  }

  function KeepId(n: Option<int>): Option<int> {
    if n.Some? && n.value != 0 then n else None
  }

  /** send_message: the body posted to sendMessage. */
  method SendBody(chatId: Option<int>, text: string, parseMode: Option<string>, replyTo: Option<int>)
    returns (body: map<string, Json>)
    ensures "chat_id" in body && body["chat_id"] == IdJson(chatId)
    ensures "text" in body && body["text"] == JStr(text)
    ensures "parse_mode" in body <==> Truthy(parseMode)
    ensures "reply_to_message_id" in body <==> KeepId(replyTo).Some?
    ensures body.Keys <= {"chat_id", "text", "parse_mode", "reply_to_message_id"}
    ensures ReadSendBody(body) == Some(Send(chatId, text, Keep(parseMode), KeepId(replyTo)))
  {
    body := map["chat_id" := IdJson(chatId), "text" := JStr(text)];
    if Truthy(parseMode) {
      body := body["parse_mode" := JStr(parseMode.value)];
    }
    if replyTo.Some? && replyTo.value != 0 {
      body := body["reply_to_message_id" := JInt(replyTo.value)];
    }
  }

  const PollingTimeout: int := 30

  /** get_updates: the query parameters; the offset only when non-zero. */
  method UpdatesParams(offset: int, timeout: int) returns (params: map<string, Json>)
    ensures "timeout" in params && params["timeout"] == JInt(timeout)
    ensures "allowed_updates" in params && params["allowed_updates"] == JStrings(["message", "edited_message"])
    ensures "offset" in params <==> offset != 0
    ensures "offset" in params ==> params["offset"] == JInt(offset)
    ensures params.Keys <= {"timeout", "allowed_updates", "offset"}
  {
    params := map["timeout" := JInt(timeout), "allowed_updates" := JStrings(["message", "edited_message"])];
    if offset != 0 {
      params := params["offset" := JInt(offset)];
    }
  }

  /** get_updates' answer: the decoded response, or on any failure an
      answer with no updates. */
  function FetchedUpdates(response: Option<Updates>): (r: Updates)
    ensures response.None? ==> !r.ok && r.result == []
  {
    if response.Some? then response.value else Updates(false, [])
  }

  // -----------------------------------------------------------------------
  // polling_loop
  // -----------------------------------------------------------------------

  /** The message an update carries: the new message, else the edited one. */
  function Carried(u: Update): Option<Message> {
    if u.message.Some? then u.message else u.editedMessage
  }

  /** The send_message calls made for a batch of updates, in order. */
  function Replies(updates: seq<Update>): seq<Send> {
    if updates == [] then []
    else
      var u := updates[|updates| - 1];
      var m := Carried(u);
      var last := if m.Some? then ProcessMessage(m.value) else None;
      Replies(updates[..|updates| - 1]) + (if last.Some? then [last.value] else [])
  }

  /** The offset after a batch: one past the last update, else unchanged. */
  function NextOffset(offset: int, updates: seq<Update>): int {
    if updates == [] then offset else updates[|updates| - 1].updateId + 1
  }

  /** Each update is answered at most once. */
  lemma {:induction false} RepliesBounded(updates: seq<Update>)
    ensures |Replies(updates)| <= |updates|
  {
    if updates != [] {
      RepliesBounded(updates[..|updates| - 1]);
    }
  }

  /** Answering two batches in turn is answering them as one. */
  lemma {:induction false} RepliesAppend(a: seq<Update>, b: seq<Update>)
    ensures Replies(a + b) == Replies(a) + Replies(b)
    decreases |b|
  {
    if b == [] {
      assert a + b == a;
    } else {
      var init := b[..|b| - 1];
      RepliesAppend(a, init);
      assert (a + b)[..|a + b| - 1] == a + init;
      assert (a + b)[|a + b| - 1] == b[|b| - 1];
    }
  }

  /** An update with a message is answered for that message; an edit that
      comes with a message is ignored. */
  lemma MessageBeforeEdit(u: Update)
    requires u.message.Some?
    ensures Replies([u]) == if ProcessMessage(u.message.value).Some? then [ProcessMessage(u.message.value).value] else []
  {
    assert [u][..0] == [];
  }

  /** After a batch whose last update id is not negative, the next poll
      asks only for later updates. */
  lemma NextPollSkipsSeen(offset: int, updates: seq<Update>)
    requires updates != [] && updates[|updates| - 1].updateId >= 0
    ensures NextOffset(offset, updates) == updates[|updates| - 1].updateId + 1 > 0
  {
  }

  class Poller {
    /** last_update_id */
    var lastUpdateId: int

    constructor ()
      ensures lastUpdateId == 0
    {
      lastUpdateId := 0;
    }

    /** The loop over one successful batch: the offset follows each update
        and each carried message is answered. */
    method HandleBatch(updates: seq<Update>) returns (sent: seq<Send>)
      modifies this
      ensures sent == Replies(updates)
      ensures lastUpdateId == NextOffset(old(lastUpdateId), updates)
    {
      sent := [];
      var i := 0;
      while i < |updates|
        invariant 0 <= i <= |updates|
        invariant sent == Replies(updates[..i])
        invariant lastUpdateId == NextOffset(old(lastUpdateId), updates[..i])
      {
        var update := updates[i];
        lastUpdateId := update.updateId + 1;
        var reply: Option<Send> := None;
        if update.message.Some? {
          reply := ProcessMessage(update.message.value);
        } else if update.editedMessage.Some? {
          reply := ProcessMessage(update.editedMessage.value);
        }
        if reply.Some? {
          sent := sent + [reply.value];
        }
        assert updates[..i + 1][..i] == updates[..i];
        i := i + 1;
      }
      assert updates[..|updates|] == updates;
    }

    /** One turn of polling_loop: the query sent, then the batch handled
        when the answer is ok and non-empty; `response` is None when the
        request fails. */
    method PollOnce(response: Option<Updates>) returns (params: map<string, Json>, sent: seq<Send>)
      modifies this
      ensures "offset" in params <==> old(lastUpdateId) != 0
      ensures "offset" in params ==> params["offset"] == JInt(old(lastUpdateId))
      ensures "timeout" in params && params["timeout"] == JInt(PollingTimeout)
      ensures "allowed_updates" in params && params["allowed_updates"] == JStrings(["message", "edited_message"])
      ensures params.Keys <= {"timeout", "allowed_updates", "offset"}
      ensures var got := FetchedUpdates(response);
              if got.ok && got.result != [] then
                sent == Replies(got.result) && lastUpdateId == NextOffset(old(lastUpdateId), got.result)
              else
                sent == [] && lastUpdateId == old(lastUpdateId)
    {
      params := UpdatesParams(lastUpdateId, PollingTimeout);
      var got := FetchedUpdates(response);
      if got.ok && got.result != [] {
        sent := HandleBatch(got.result);
      } else {
        sent := [];
      }
    }
  }
}
