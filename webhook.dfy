/**
  The Telegram webhook: a keyword table looked up by case-insensitive
  substring, the chain of guards that decides whether to answer an update,
  the body of the outgoing `sendMessage` request, and the handler that
  always acknowledges the update exactly once.
*/
module Webhook {
  import opened Prelude
  import opened Text

  // ---------------------------------------------------------------------------
  // Inbound update
  // ---------------------------------------------------------------------------

  /** A JSON field as the handler sees it: missing, a string, or some other value. */
  datatype Field = Absent | Str(s: string) | NonString(truthy: bool)

  /** JavaScript truthiness of a field: a non-empty string or a truthy non-string. */
  predicate Truthy(f: Field)
  {
    match f
    case Absent => false
    case Str(s) => s != ""
    case NonString(t) => t
  }

  /**
    The parts of `message` the handler reads: `text`, `from.is_bot`
    (false when `from` is missing), `chat.id` and `message_id`.
  */
  datatype Message = Message(text: Field, fromIsBot: bool, chatId: Option<int>, messageId: Option<int>)

  /** An HTTP request: its method and the update's `message`, if any. */
  datatype Request = Request(httpMethod: string, message: Option<Message>)

  // ---------------------------------------------------------------------------
  // Keyword table
  // ---------------------------------------------------------------------------

  /**
    Keyword and reply pairs in the order `Object.entries` lists them, which
    is match priority; for keys that are not integer-like, as in the
    shipped table, that is declaration order.
  */
  type Table = seq<(string, string)>

  /** The shipped `KEYWORD_REPLIES`. */
  const KeywordReplies: Table := [("dog", "Hey, idiot!")]

  /** The lower-cased keyword of `entry` occurs in the lower-cased text. */
  predicate KeywordMatches(lowered: string, entry: (string, string))
  {
    Contains(lowered, Lower(entry.0))
  }

  /** Index of the first entry whose keyword occurs in `lowered`, if any. */
  function FirstMatch(table: Table, lowered: string): (r: Option<nat>)
    ensures r.Some? ==> r.value < |table| && KeywordMatches(lowered, table[r.value])
    ensures r.Some? ==> forall j :: 0 <= j < r.value ==> !KeywordMatches(lowered, table[j])
    ensures r.None? ==> forall j :: 0 <= j < |table| ==> !KeywordMatches(lowered, table[j])
  {
    if table == [] then None
    else if KeywordMatches(lowered, table[0]) then Some(0)
    else
      match FirstMatch(table[1..], lowered)
      case None => None
      case Some(i) => Some(i + 1)
  }

  /**
    `getReplyForMessage` over a given table: nothing for a missing, empty
    or non-string text; otherwise the reply of the first keyword, in table
    order, that occurs in the text ignoring case; nothing when none does.
  */
  function ReplyFor(table: Table, text: Field): (r: Option<string>)
    ensures !(text.Str? && text.s != "") ==> r.None?
    ensures r.Some? ==>
      exists i :: 0 <= i < |table| && table[i].1 == r.value
        && KeywordMatches(Lower(text.s), table[i])
        && forall j :: 0 <= j < i ==> !KeywordMatches(Lower(text.s), table[j])
    ensures r.None? && text.Str? && text.s != "" ==>
      forall j :: 0 <= j < |table| ==> !KeywordMatches(Lower(text.s), table[j])
  {
    match text
    case Str(s) =>
      if s == "" then None
      else (
        match FirstMatch(table, Lower(s))
        case None => None
        case Some(i) => Some(table[i].1))
    case _ => None
  }

  /**
    `getReplyForMessage(text)` with the shipped table: "Hey, idiot!" exactly
    when the text is a string containing "dog" in any case, else nothing.
  */
  function GetReplyForMessage(text: Field): (r: Option<string>)
    ensures r == if text.Str? && Contains(Lower(text.s), "dog") then Some("Hey, idiot!") else None
  {
    assert Lower("dog") == "dog";
    assert KeywordReplies[0] == ("dog", "Hey, idiot!");
    assert text.Str? && text.s == "" ==> !Contains(Lower(text.s), "dog");
    ReplyFor(KeywordReplies, text)
  }

  /** Upper- or lower-casing the text never changes which reply is chosen. */
  lemma ReplyIgnoresCase(table: Table, t: string)
    ensures ReplyFor(table, Str(Upper(t))) == ReplyFor(table, Str(t))
    ensures ReplyFor(table, Str(Lower(t))) == ReplyFor(table, Str(t))
  {
    LowerForgetsCase(t);
  }

  // ---------------------------------------------------------------------------
  // Outgoing sendMessage body
  // ---------------------------------------------------------------------------

  /** The JSON values a `sendMessage` body carries. */
  datatype Json = JInt(n: int) | JStr(s: string)

  /** A JSON object as its ordered list of fields. */
  type JsonObject = seq<(string, Json)>

  predicate HasKey(obj: JsonObject, key: string)
  {
    exists i :: 0 <= i < |obj| && obj[i].0 == key
  }

  /** The body `sendTelegramMessage` posts: `chat_id`, `text` and, only for a non-null target, `reply_to_message_id`. */
  function SendBody(chatId: int, text: string, replyTo: Option<int>): (body: JsonObject)
    ensures |body| == if replyTo.Some? then 3 else 2
    ensures HasKey(body, "reply_to_message_id") <==> replyTo.Some?
    ensures body[0] == ("chat_id", JInt(chatId)) && body[1] == ("text", JStr(text))
    ensures replyTo.Some? ==> |body| == 3 && body[2] == ("reply_to_message_id", JInt(replyTo.value))
    ensures forall i, j :: 0 <= i < j < |body| ==> body[i].0 != body[j].0
  {
    var body := [("chat_id", JInt(chatId)), ("text", JStr(text))]
      + (if replyTo.Some? then [("reply_to_message_id", JInt(replyTo.value))] else []);
    assert replyTo.Some? ==> body[2].0 == "reply_to_message_id";
    body
  }

  // ---------------------------------------------------------------------------
  // Decision and handler
  // ---------------------------------------------------------------------------

  /** A reply the handler would send: present and not empty (`!replyText` fails). */
  predicate Usable(reply: Option<string>)
  {
    reply.Some? && reply.value != ""
  }

  /** What the handler does with an update: nothing, or one reply. */
  datatype Action = NoSend | Send(chatId: int, text: string, replyTo: Option<int>)

  /** `TELEGRAM_BOT_TOKEN` is set to a non-empty value. */
  predicate TokenSet(token: Option<string>)
  {
    token.Some? && token.value != ""
  }

  /**
    The handler's guards, in order: not a POST, no token, no message text,
    a bot sender, no keyword reply, no chat id. Passing them all means
    one reply with the keyword's text to the chat, answering the message.
  */
  function Decide(req: Request, token: Option<string>): (a: Action)
    ensures a.NoSend? <==>
      || req.httpMethod != "POST"
      || !TokenSet(token)
      || req.message.None?
      || !Truthy(req.message.value.text)
      || req.message.value.fromIsBot
      || !Usable(GetReplyForMessage(req.message.value.text))
      || req.message.value.chatId.None?
    ensures a.Send? ==>
      && req.message.Some?
      && Some(a.text) == GetReplyForMessage(req.message.value.text)
      && a.text != ""
      && Some(a.chatId) == req.message.value.chatId
      && a.replyTo == req.message.value.messageId
  {
    if req.httpMethod != "POST" || !TokenSet(token) then NoSend
    else
      match req.message
      case None => NoSend
      case Some(m) =>
        if !Truthy(m.text) || m.fromIsBot then NoSend
        else
          match GetReplyForMessage(m.text)
          case None => NoSend
          case Some(reply) =>
            if reply == "" then NoSend
            else
              match m.chatId
              case None => NoSend
              case Some(c) => Send(c, reply, m.messageId)
  }

  /** What the handler does to the outside world, in order. */
  datatype Effect = SendMessage(token: string, payload: JsonObject) | Respond(status: int, content: string)

  /** The acknowledgement Telegram expects on every path. */
  const Ack: Effect := Respond(200, "OK")

  function CountResponses(effects: seq<Effect>): (n: nat)
    ensures n <= |effects|
  {
    if effects == [] then 0
    else (if effects[0].Respond? then 1 else 0) + CountResponses(effects[1..])
  }

  /**
    The webhook `handler`: each failed guard goes straight to the
    acknowledgement; passing them all sends one message first. A failing send is
    only logged, so it leads to the same acknowledgement.
  */
  method Handle(req: Request, token: Option<string>) returns (effects: seq<Effect>)
    ensures |effects| >= 1 && effects[|effects| - 1] == Ack
    ensures CountResponses(effects) == 1
    ensures Decide(req, token).NoSend? ==> effects == [Ack]
    ensures Decide(req, token).Send? ==>
      && token.Some?
      && |effects| == 2
      && effects[0] == SendMessage(token.value, SendBody(Decide(req, token).chatId,
                                                         Decide(req, token).text,
                                                         Decide(req, token).replyTo))
  {
    // Each failed guard skips the send; every path then acknowledges once.
    var sent: seq<Effect> := [];
    if req.httpMethod == "POST" && TokenSet(token) {
      if req.message.Some? && Truthy(req.message.value.text) {
        var message := req.message.value;
        if !message.fromIsBot {
          var replyText := GetReplyForMessage(message.text);
          if replyText.Some? && replyText.value != "" && message.chatId.Some? {
            var body := SendBody(message.chatId.value, replyText.value, message.messageId);
            sent := [SendMessage(token.value, body)];
          }
        }
      }
    }
    effects := sent + [Ack];
    assert CountResponses(effects[|sent|..]) == 1;
  }
}
