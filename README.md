# Telegram keyword bot: a Dafny model

This project models the core of a small Telegram group bot deployed as a
serverless function:

- **The webhook** (`api/webhook.js`). An incoming update gets a reply when
  every guard passes: the request is a POST, the bot token is set, the
  message has text, the sender is not a bot, a keyword from the reply table
  occurs in the text ignoring case, and the chat id is known. The reply is
  one `sendMessage` call, answering the original message when it has an id.
  Every path, including a failed send, ends in exactly one `200 OK`
  acknowledgement.
- **The generative-reply helper** (`lib/openai.js`). It builds the system
  prompt from the trigger category (`bot-positive`, `bot-negative`,
  `vulgar`, or anything else). A frequent offender in the vulgar category
  gets an extra sterner-tone sentence. It builds the user message from the
  recent chat lines (newest last) and the current message. It refuses to
  run without an API key. The answer is trimmed, and an empty answer or
  `NOREPLY` in any case becomes exactly `NOREPLY`.
- **The key-value helpers** (`lib/kv.js`). They keep:
  - per chat, the last five `name: text` lines under `chat:<id>`, with a
    five-minute TTL;
  - per user, a counter of vulgar replies under `vulgar_count:<id>`, with
    a 24-hour TTL.
  A user is a *frequent offender* when they are on the comma-separated id
  list or their count has reached three. With no store configured, or when
  a store command fails, the helpers change nothing and read empty values.

Modules:

- `Prelude`: `Option`, `Result`.
- `Text`: the JavaScript string operations the code relies on, with their
  laws:
  - ASCII `toLowerCase`/`toUpperCase`. This is exact for the one
    upper-casing comparison the code makes, against `NOREPLY`: no
    non-ASCII character upper-cases to a letter of that word;
  - `includes`;
  - `trim`, with the ECMAScript white-space and line-terminator set;
  - `split`/`join` on one character, with their round trips;
  - concatenation of a list of strings;
  - reversal.
- `Webhook`: the keyword lookup, the guard chain (`Decide`), the
  `sendMessage` body and the handler (`Handle`), which yields the list of
  outside effects in order.
- `OpenAi`: the prompts, the answer normalisation and `getReply`, with the
  API response taken as a parameter.
- `Kv`: keys, history lines, and the store as a value (`Snapshot`) with
  the pure transitions `Appended` and `Incremented`. The `Store` class
  holds the mutable store, and its methods are proved against those
  transitions. Time is an explicit `now` in seconds; a key is live while
  `now` is before its deadline.

## Model

| member | source | states |
|---|---|---|
| Text.Lower | api/webhook.js:31 | lower-casing keeps the length and maps each character to its ASCII lower-case form |
| Text.Upper | lib/openai.js:88 | upper-casing keeps the length and maps each character to its ASCII upper-case form |
| Text.LowerForgetsCase | api/webhook.js:31-33 | lower-casing an upper-cased or lower-cased text gives the same result as lower-casing the text itself |
| Text.Trim | lib/openai.js:87 | the result is the text with its leading and trailing white space removed, and it starts and ends with a non-space when not empty |
| Text.TrimIdempotent | lib/openai.js:87 | trimming a trimmed string changes nothing |
| Text.TrimEmpty | lib/openai.js:87-89 | a string trims to nothing exactly when every character in it is white space |
| Text.Split | lib/kv.js:110 | splitting yields at least one piece, and no piece contains the separator |
| Text.JoinSplit | lib/kv.js:110 | joining the pieces of a split with the same separator gives back the original string |
| Text.Join | lib/openai.js:46 | the joined text is as long as the entries together plus one separator between each pair of neighbours, and is empty for no entries |
| Text.SplitJoin | lib/openai.js:46 | splitting a join of separator-free entries gives back the entries, in order |
| Webhook.FirstMatch | api/webhook.js:32-34 | the index found is that of the first table entry, in table order, whose lower-cased keyword occurs in the lower-cased text; none means no entry matches |
| Webhook.ReplyFor | api/webhook.js:29-36 | a missing, empty or non-string text gets no reply; otherwise the reply is that of the first matching keyword, and none means no keyword matches |
| Webhook.ReplyIgnoresCase | api/webhook.js:31-33 | upper- or lower-casing the text never changes the reply chosen |
| Webhook.GetReplyForMessage | api/webhook.js:29-36 | with the shipped table (lines 7-9), a text gets "Hey, idiot!" exactly when it is a string containing "dog" in any case, and no reply otherwise |
| Webhook.SendBody | api/webhook.js:13-17 | the body carries `chat_id` and `text`, and carries `reply_to_message_id` with the target exactly when a target is given; keys are distinct |
| Webhook.Decide | api/webhook.js:38-79 | no reply exactly when some guard fails (not POST, no token, no text, bot sender, no non-empty keyword reply, no chat id); a reply goes to the message's chat, with the keyword reply as its text, answering the message |
| Webhook.Handle | api/webhook.js:38-85 | every path ends with exactly one `200 OK`; without a reply that is the only effect; with one, a single `sendMessage` with the token and `Webhook.SendBody` precedes it |
| OpenAi.PromptSentences | lib/openai.js:9-41 | the prompt has three to five sentences, opening with the base sentence and closing with the NOREPLY rule |
| OpenAi.BuildSystemPrompt | lib/openai.js:9-41 | every system prompt starts with the base sentence and ends with the NOREPLY rule |
| OpenAi.FlagOnlyForVulgar | lib/openai.js:14-27 | outside the vulgar category the frequent-offender flag does not change the prompt |
| OpenAi.SternerSentenceExactly | lib/openai.js:28-38 | the sterner-tone sentence is among the prompt's sentences exactly for a frequent offender in the vulgar category |
| OpenAi.SternerToneInPrompt | lib/openai.js:31-34 | for a frequent offender in the vulgar category, the sterner-tone sentence occurs in the system prompt text |
| OpenAi.RecentLines | lib/openai.js:44-47 | a missing or empty list of recent lines gives the "(no recent messages)" placeholder |
| OpenAi.RecentLinesInOrder | lib/openai.js:44-47 | single-line recent messages can be read back from the block, in their order |
| OpenAi.BuildUserMessage | lib/openai.js:48 | the user message is exactly the header, then the recent-lines block, then the current-message label with the current text (empty when absent), with nothing in between |
| OpenAi.NormalizeAnswer | lib/openai.js:86-89 | the answer is never empty; it is exactly NOREPLY when the content is missing, blank, or NOREPLY ignoring case; otherwise it is the trimmed content |
| OpenAi.NormalizeIdempotent | lib/openai.js:86-89 | normalising a normalised answer changes nothing |
| OpenAi.GetReply | lib/openai.js:59-90 | with no API key it fails before any request; with one, it sends exactly the built system and user prompts, fails exactly when the call fails, and otherwise returns the normalised answer (`OpenAi.NormalizeAnswer`) of the returned content; a result is never empty |
| Kv.ChatKey | lib/kv.js:36 | a chat key is "chat:" followed by the chat id |
| Kv.VulgarKey | lib/kv.js:73 | a counter key is "vulgar_count:" followed by the user id |
| Kv.KeysSeparate | lib/kv.js:73 | chat keys and counter keys never collide, and distinct chats or users get distinct keys |
| Kv.DisplayName | lib/kv.js:37 | the name shown in a history line is never empty ("?" stands in for a missing name) |
| Kv.HistoryLine | lib/kv.js:37 | a history line is the display name, ": ", then exactly the first min(200, length) characters of the text, so the whole text when it is that short, and nothing when there is no text |
| Kv.PushTrim | lib/kv.js:39-40 | after push and trim the list holds one to five lines: the new line first, then the previous lines in order, cut to four |
| Text.Reverse | lib/kv.js:58 | the reversal keeps the length and puts position `k` of the original at position `length - 1 - k` |
| Kv.HistoryView | lib/kv.js:57-58 | the history read holds the first five stored lines (newest first in the store), in reverse order, so newest last |
| Kv.HistoryAt | lib/kv.js:55-58 | reading a chat's history gives nothing unless a live list is stored, and otherwise that list's five newest lines, newest last |
| Kv.Appended | lib/kv.js:33-45 | appending touches no other key; a live non-list value is left as it is; otherwise the key holds the pushed and trimmed list until five minutes after the append, and nothing after that |
| Kv.ViewAfterPush | lib/kv.js:39-58 | after a push, the history read is the previous view without its oldest line when full, followed by the new line |
| Kv.HistoryAfterAppend | lib/kv.js:33-62 | within five minutes of an append, `getChatHistory` returns the lines it returned before, less the oldest when there were five, with the new line last |
| Kv.CountAt | lib/kv.js:75-76 | reading a count gives the stored number when a live number is stored, and 0 for a missing, expired or non-number value |
| Kv.Incremented | lib/kv.js:87-97 | incrementing touches no other key; a live non-number is left as it is; otherwise the count is one more than the live count until 24 hours later, and zero after |
| Kv.ThreeIncrements | lib/kv.js:87-99 | three increments, each within a day of the previous one, give a count of three (the threshold) until a day after the last one, and zero after that |
| Kv.TrimmedIds | lib/kv.js:111-112 | an id is kept exactly when it is the non-empty trim of some piece, and no kept id is empty |
| Kv.ParseIdList | lib/kv.js:108-112 | an id is on the list exactly when it is the non-empty trim of some comma-separated piece, and no id contains a comma |
| Kv.Listed | lib/kv.js:107-113 | a user is on the list exactly when the list is set and the user id is the non-empty trim of one of its comma-separated pieces; a listed id is never empty and never holds a comma |
| Kv.Store.constructor | lib/kv.js:10-25 | a client starts empty, configured or not, and working or not |
| Kv.Store.AppendChatHistory | lib/kv.js:33-45 | a reachable store moves to `Kv.Appended`; otherwise nothing changes; lists never grow past five and counts stay positive |
| Kv.Store.GetChatHistory | lib/kv.js:52-63 | at most five lines, namely the live list's five newest lines oldest first; nothing when there is no client or the store fails |
| Kv.Store.GetVulgarCount | lib/kv.js:70-81 | the live count, never negative; 0 when there is no client, the store fails, the key is missing or expired, or the value is not a number |
| Kv.Store.IncrVulgarCount | lib/kv.js:87-97 | a reachable store moves to `Kv.Incremented`; otherwise nothing changes; the store invariant is kept |
| Kv.Store.IsFrequentVulgar | lib/kv.js:106-117 | a listed user is always frequent; any other user is frequent exactly when the store is reachable and their live count is at least three |

## Left out

- HTTP plumbing is not modelled: `fetch`, the request URL and headers,
  JSON serialisation, and `res.status(...).send(...)`. `Webhook.Handle`
  returns the effects it would perform, in order.
- Whether `sendMessage` succeeds is not modelled. A failed or throwing
  send is only logged, so it leads to the same acknowledgement.
- Logging (`console.error`/`console.warn`) is not modelled.
- Environment variables are not read. `TELEGRAM_BOT_TOKEN`,
  `OPENAI_API_KEY` and `FREQUENT_VULGAR_USER_IDS` are parameters.
- `OPENAI_MODEL` is not modelled. The request options (model,
  `max_tokens`, `temperature`) only configure the API call, and that call
  is not modelled.
- The chat-completions call itself is not modelled. Its outcome is the
  `response` parameter of `OpenAi.GetReply`: the first choice's content,
  or a failure.
- Lazy creation of the Redis client from the environment is not modelled.
  The model has a `configured` flag fixed at construction instead.
- Store failures are not modelled one command at a time. They are a single
  `online` flag for the whole store. A failure between `lpush` and
  `ltrim`, or between `incr` and `expire`, which would leave a partial
  update, is not modelled.
- Wall-clock time is replaced by the explicit parameter `now`. Redis's
  own expiry is modelled as absolute deadlines, and a key is live strictly
  before its deadline.
- Concurrent requests and interleaved store commands are not modelled.
- Chat ids and user ids are taken as text already rendered by
  `String(...)` or a template literal. Integer formatting is not modelled.
- Texts reaching `appendChatHistory` and `getReply` are modelled as
  strings or absent. A non-string truthy text would make `.slice` throw
  before the `try` block; that case is not modelled.
- Recent messages are modelled as strings. `join` applied to non-string
  entries is not modelled.
- A stored string that looks like a number is not modelled. `Kv.Entry`'s
  `TextVal` stands for any non-integer value, and `incr` rejects such a
  value.
- Webhook.ReplyFor: takes the table already in `Object.entries` order.
  Integer-like keys, which JavaScript lists first in ascending order, are
  not reordered. The shipped table has none.
- Text.Lower: folds ASCII letters only. JavaScript's `toLowerCase` also
  maps other scripts.
- Kv.HistoryLine: caps the text at 200 characters. JavaScript's `slice`
  counts UTF-16 code units, so texts with characters outside the Basic
  Multilingual Plane are cut differently.
- OpenAi.SternerSentenceExactly: states the absence of the sterner-tone
  sentence over the prompt's list of sentences, not as a fact about
  substrings of the concatenated prompt text. Its presence in the text is
  stated by `OpenAi.SternerToneInPrompt`.
