/**
  The generative-reply helper: the system prompt chosen by trigger category
  and tone, the user message built from recent chat lines, the API-key
  check, and the normalisation of the model's answer into a reply or the
  `NOREPLY` sentinel. The chat-completions call itself is an input.
*/
module OpenAi {
  import opened Prelude
  import opened Text

  /** The sentinel meaning "no reply is warranted". */
  const NoReply: string := "NOREPLY"

  // ---------------------------------------------------------------------------
  // System prompt
  // ---------------------------------------------------------------------------

  const BaseRule: string := "You are a Telegram group bot. Reply in one short sentence only. "
  const NoReplyRule: string :=
    "If the message doesn't need a reply (e.g. off-topic, not about the bot, or not actually insulting in context), respond with exactly: NOREPLY."
  const PositiveRule: string :=
    "Max 15 words. Reply with a single short thank you. Friendly and modest. No emoji overload. "
  const NegativeRule: string :=
    "Max 20 words. Either a calm warning (e.g. only admins can remove) OR one reason the bot exists (keeps chat friendly). Firm but not aggressive. "
  const VulgarRule: string :=
    "Max 15 words. Mocking/roasting tone. Call out the behavior (keyboard warrior, edge lord, dehumanizing language). No serious lecture. "
  const SternerRule: string :=
    "This user has triggered vulgar/mean replies several times recently; reply with a slightly sterner, more direct tone. "
  const PetRule: string :=
    "If the message is not actually insulting someone (e.g. just talking about a pet), respond NOREPLY. "
  const DefaultRule: string := "Max 15 words. "

  /**
    The sentences `buildSystemPrompt` puts together, in order: the base
    sentence, the instructions for the category ("bot-positive",
    "bot-negative", "vulgar", or any other), and the NOREPLY rule; in the
    vulgar category the sterner-tone sentence only for a frequent offender.
  */
  function PromptSentences(category: string, isFrequentVulgar: bool): (parts: seq<string>)
    ensures 3 <= |parts| <= 5 && parts[0] == BaseRule && parts[|parts| - 1] == NoReplyRule
  {
    if category == "bot-positive" then [BaseRule, PositiveRule, NoReplyRule]
    else if category == "bot-negative" then [BaseRule, NegativeRule, NoReplyRule]
    else if category == "vulgar" then
      [BaseRule, VulgarRule] + (if isFrequentVulgar then [SternerRule] else []) + [PetRule, NoReplyRule]
    else [BaseRule, DefaultRule, NoReplyRule]
  }

  /** `buildSystemPrompt`: the sentences concatenated; it opens with the base sentence and closes with the NOREPLY rule. */
  function BuildSystemPrompt(category: string, isFrequentVulgar: bool): (p: string)
    ensures StartsWith(p, BaseRule)
    ensures EndsWith(p, NoReplyRule)
  {
    var parts := PromptSentences(category, isFrequentVulgar);
    ConcatStartsWithFirst(parts);
    ConcatEndsWithLast(parts);
    Concat(parts)
  }

  /** Outside the vulgar category the frequent-offender flag does not change the prompt. */
  lemma FlagOnlyForVulgar(category: string)
    requires category != "vulgar"
    ensures BuildSystemPrompt(category, true) == BuildSystemPrompt(category, false)
  {
  }

  /** The sterner-tone sentence is one of the prompt's sentences exactly for a frequent offender in the vulgar category. */
  lemma SternerSentenceExactly(category: string, isFrequentVulgar: bool)
    ensures SternerRule in PromptSentences(category, isFrequentVulgar)
        <==> category == "vulgar" && isFrequentVulgar
  {
    // The sentences have pairwise different lengths.
    assert |SternerRule| == 117;
    assert |BaseRule| == 64 && |NoReplyRule| == 141;
    if category == "bot-positive" {
      assert |PositiveRule| == 91;
    } else if category == "bot-negative" {
      assert |NegativeRule| == 143;
    } else if category == "vulgar" {
      assert |VulgarRule| == 133 && |PetRule| == 99;
    } else {
      assert |DefaultRule| == 14;
    }
  }

  /** For a frequent offender in the vulgar category the sterner-tone sentence occurs in the prompt. */
  lemma {:induction false} SternerToneInPrompt()
    ensures Contains(BuildSystemPrompt("vulgar", true), SternerRule)
  {
    var parts := PromptSentences("vulgar", true);
    assert parts[2] == SternerRule;
    ConcatContainsPart(parts, 2);
  }

  // ---------------------------------------------------------------------------
  // User message
  // ---------------------------------------------------------------------------

  const UserHeader: string := "Recent messages (newest last):\n"
  const NoRecent: string := "(no recent messages)"
  const CurrentLabel: string := "\n\nCurrent message: "

  /**
    The recent-messages block: the entries joined by newlines, or a
    placeholder when the list is missing (not an array) or empty.
  */
  function RecentLines(recent: Option<seq<string>>): (lines: string)
    ensures recent.None? || recent.value == [] ==> lines == NoRecent
  {
    if recent.Some? && |recent.value| > 0 then Join(recent.value, '\n') else NoRecent
  }

  /** Single-line entries can be read back from the block, in the order given. */
  lemma RecentLinesInOrder(xs: seq<string>)
    requires |xs| > 0
    requires forall i :: 0 <= i < |xs| ==> '\n' !in xs[i]
    ensures Split(RecentLines(Some(xs)), '\n') == xs
  {
    SplitJoin(xs, '\n');
  }

  /** `currentMessage || ""`. */
  function CurrentText(current: Option<string>): string
  {
    if current.Some? then current.value else ""
  }

  /** `buildUserMessage`: header, recent-messages block, then the current message. */
  function BuildUserMessage(recent: Option<seq<string>>, current: Option<string>): (m: string)
    ensures StartsWith(m, UserHeader)
    ensures |UserHeader| + |RecentLines(recent)| <= |m|
    ensures m[|UserHeader|..|UserHeader| + |RecentLines(recent)|] == RecentLines(recent)
    ensures EndsWith(m, CurrentLabel + CurrentText(current))
    ensures |m| == |UserHeader| + |RecentLines(recent)| + |CurrentLabel| + |CurrentText(current)|
  {
    var lines := RecentLines(recent);
    var tail := CurrentLabel + CurrentText(current);
    var m := UserHeader + lines + tail;
    assert m[..|UserHeader|] == UserHeader;
    assert m[|UserHeader|..|UserHeader| + |lines|] == lines;
    assert m[|m| - |tail|..] == tail;
    m
  }

  // ---------------------------------------------------------------------------
  // Answer post-processing
  // ---------------------------------------------------------------------------

  /**
    The tail of `getReply`: trim a string answer (anything else counts as
    empty); an answer equal to NOREPLY ignoring case, or an empty one,
    becomes exactly NOREPLY; any other answer is returned trimmed.
  */
  function NormalizeAnswer(content: Option<string>): (r: string)
    ensures r != ""
    ensures r == NoReply <==>
      content.None? || Trim(content.value) == "" || Upper(Trim(content.value)) == NoReply
    ensures r != NoReply ==> content.Some? && r == Trim(content.value)
  {
    var text := if content.Some? then Trim(content.value) else "";
    assert Upper(NoReply) == NoReply;
    if Upper(text) == NoReply then NoReply
    else if text == "" then NoReply
    else text
  }

  /** Normalising an already normalised answer changes nothing. */
  lemma NormalizeIdempotent(content: Option<string>)
    ensures NormalizeAnswer(Some(NormalizeAnswer(content))) == NormalizeAnswer(content)
  {
    var r := NormalizeAnswer(content);
    if r == NoReply {
      assert Trim(NoReply) == NoReply by {
        assert LeadingSpaces(NoReply) == 0;
        assert TrailingSpaces(NoReply) == 0;
      }
    } else {
      TrimIdempotent(content.value);
    }
  }

  // ---------------------------------------------------------------------------
  // getReply
  // ---------------------------------------------------------------------------

  /** What `getReply` throws. */
  datatype ReplyError = MissingApiKey | RequestFailed

  /** The two messages sent to the chat-completions API. */
  datatype ChatRequest = ChatRequest(system: string, user: string)

  /** A `getReply` call: the request it made, if any, and its result or error. */
  datatype ReplyOutcome = ReplyOutcome(request: Option<ChatRequest>, result: Result<string, ReplyError>)

  /**
    `getReply`. `response` stands for the API call: the answer's content
    (`None` for a missing or non-string content) or a failure. Without an
    API key it fails before any request; otherwise it sends the two
    prompts and normalises the answer.
  */
  function GetReply(apiKey: Option<string>, category: string, recent: Option<seq<string>>,
                    current: Option<string>, isFrequentVulgar: bool,
                    response: Result<Option<string>, ()>): (o: ReplyOutcome)
    ensures !(apiKey.Some? && apiKey.value != "") ==>
      o.request.None? && o.result == Failure(MissingApiKey)
    ensures apiKey.Some? && apiKey.value != "" ==>
      o.request == Some(ChatRequest(BuildSystemPrompt(category, isFrequentVulgar),
                                    BuildUserMessage(recent, current)))
    ensures apiKey.Some? && apiKey.value != "" ==>
      o.result == if response.Failure? then Failure(RequestFailed) else Success(NormalizeAnswer(response.value))
    ensures o.result.Failure? ==> o.result.error == MissingApiKey || response.Failure?
    ensures o.result.Success? ==> o.result.value != ""
    ensures o.result.Success? && response.Success? && response.value.Some? ==>
      o.result.value == NoReply || o.result.value == Trim(response.value.value)
  {
    if !(apiKey.Some? && apiKey.value != "") then
      ReplyOutcome(None, Failure(MissingApiKey))
    else
      var request := ChatRequest(BuildSystemPrompt(category, isFrequentVulgar),
                                 BuildUserMessage(recent, current));
      match response
      case Failure(_) => ReplyOutcome(Some(request), Failure(RequestFailed))
      case Success(content) => ReplyOutcome(Some(request), Success(NormalizeAnswer(content)))
  }
}
