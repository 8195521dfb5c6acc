/** The two simulated speakers of the auto-chat theatre and the pure pieces of
    one conversation turn: who speaks, which history the speaker sees, what the
    speaker answers when no key is set, and the text that is recorded and sent. */
module Bots {

  /** A simulated speaker: display name, personality prompt and emoji. */
  datatype ChatBot = ChatBot(name: string, personality: string, emoji: string) {

    /** ChatBot.get_response: with an empty key, the fixed reply; otherwise the
        backend's answer in this speaker's voice. */
    function GetResponse(message: string, history: string, apiKey: string, complete: Completion): string {
      if apiKey == "" then KeyNotSetReply
      else complete(personality, message, history, apiKey)
    }
  }

  const Minji: ChatBot := ChatBot(
    "민지",
    "활발하고 재미있는 20대 대학생. 최신 트렌드와 K-pop을 좋아하고 항상 밝고 긍정적. 반말 사용하고 이모티콘 많이 씀.",
    "😊")

  const Junho: ChatBot := ChatBot(
    "준호",
    "차분하고 사려깊은 직장인. 책과 영화를 좋아하고 깊이있는 대화를 선호. 정중하고 따뜻한 말투로 존댓말 사용.",
    "🤔")

  /** The fixed cast, in speaking order. */
  const Cast: seq<ChatBot> := [Minji, Junho]

  /** How many of the latest conversation entries a speaker is shown. */
  const HistoryWindow: nat := 6

  /** The answer of a speaker that has no key, returned without any request. */
  const KeyNotSetReply: string := "❌ API 키가 설정되지 않았습니다."

  /** The completion backend: (personality, message, history, key) to reply text.
      It stands for the HTTP request and all of its own error replies. */
  type Completion = (string, string, string, string) -> string

  /** The bot that speaks on turn `turn`: `bots[turn % 2]`. */
  function Speaker(turn: nat): (b: ChatBot)
    ensures b in Cast
  {
    Cast[turn % 2]
  }

  /** Two consecutive turns never have the same speaker, and the cast repeats every two turns. */
  lemma ConsecutiveSpeakersDiffer(turn: nat)
    ensures Speaker(turn) != Speaker(turn + 1)
    ensures Speaker(turn) == Speaker(turn + 2)
  {
  }

  /** Python's `xs[-n:]`: the last `n` elements in their original order, or
      all of `xs` when it is shorter. For `n == 0` the slice is `xs[0:]`, all
      of `xs`, since `-0` is `0`. */
  function LastN<T>(xs: seq<T>, n: nat): seq<T> {
    if n == 0 || |xs| < n then xs else xs[|xs| - n..]
  }

  /** The window holds `min(n, |xs|)` elements (all of them for `n == 0`) and
      is the tail of `xs`. */
  lemma LastNIsTail<T>(xs: seq<T>, n: nat)
    ensures |LastN(xs, n)| == if n == 0 || |xs| < n then |xs| else n
    ensures xs == xs[..|xs| - |LastN(xs, n)|] + LastN(xs, n)
  {
  }

  /** Appending one entry slides the window by one: the new entry enters at the
      end and, once the window is full, the oldest entry leaves it. */
  lemma {:induction false} LastNAfterAppend<T>(xs: seq<T>, e: T, n: nat)
    requires n > 0
    ensures LastN(xs + [e], n) == (if |xs| < n then xs else LastN(xs, n)[1..]) + [e]
  {
    var ys := xs + [e];
    if |xs| < n {
      assert LastN(ys, n) == ys;
    } else {
      assert LastN(ys, n) == ys[|ys| - n..];
      assert LastN(xs, n)[1..] == xs[|xs| - n + 1..];
      assert ys[|ys| - n..] == xs[|xs| - n + 1..] + [e];
    }
  }

  /** Python's `sep.join(lines)`. */
  function Join(sep: string, lines: seq<string>): string {
    if |lines| == 0 then ""
    else if |lines| == 1 then lines[0]
    else lines[0] + sep + Join(sep, lines[1..])
  }

  /** A non-empty join starts with the first line and ends with the last one. */
  lemma {:induction false} JoinEnds(sep: string, lines: seq<string>)
    requires lines != []
    ensures lines[0] <= Join(sep, lines)
    ensures var r, last := Join(sep, lines), lines[|lines| - 1];
      |last| <= |r| && r[|r| - |last|..] == last
  {
    if |lines| > 1 {
      JoinEnds(sep, lines[1..]);
      var rest := Join(sep, lines[1..]);
      assert Join(sep, lines) == (lines[0] + sep) + rest;
    }
  }

  /** Joining one more line adds the separator and that line at the end. */
  lemma {:induction false} JoinAppend(sep: string, lines: seq<string>, line: string)
    requires lines != []
    ensures Join(sep, lines + [line]) == Join(sep, lines) + sep + line
  {
    if |lines| == 1 {
      assert (lines + [line])[1..] == [line];
    } else {
      assert (lines + [line])[1..] == lines[1..] + [line];
      JoinAppend(sep, lines[1..], line);
    }
  }

  /** The history text handed to the speaker: the last six entries, one per line. */
  function RecentHistory(conversation: seq<string>): string {
    Join("\n", LastN(conversation, HistoryWindow))
  }

  /** The history is empty for an empty conversation; otherwise it starts with
      the oldest entry of the window and ends with the latest entry. */
  lemma RecentHistoryBounds(conversation: seq<string>)
    ensures |conversation| == 0 ==> RecentHistory(conversation) == ""
    ensures |conversation| > 0 ==>
      var h := RecentHistory(conversation);
      var last := conversation[|conversation| - 1];
      |last| <= |h| && h[|h| - |last|..] == last
    ensures |conversation| > 0 ==>
      var first := if |conversation| < HistoryWindow then 0 else |conversation| - HistoryWindow;
      conversation[first] <= RecentHistory(conversation)
  {
    var w := LastN(conversation, HistoryWindow);
    LastNIsTail(conversation, HistoryWindow);
    if |conversation| > 0 {
      JoinEnds("\n", w);
      assert w[|w| - 1] == conversation[|conversation| - 1];
      var first := if |conversation| < HistoryWindow then 0 else |conversation| - HistoryWindow;
      assert w[0] == conversation[first];
    }
  }

  /** With an empty key the reply is the fixed text whatever the backend would
      say: no request is made. */
  lemma EmptyKeyShortCircuit(bot: ChatBot, message: string, history: string, c1: Completion, c2: Completion)
    ensures bot.GetResponse(message, history, "", c1) == KeyNotSetReply
    ensures bot.GetResponse(message, history, "", c1) == bot.GetResponse(message, history, "", c2)
  {
  }

  /** The start of every conversation entry of `bot`. */
  function Tag(bot: ChatBot): string {
    bot.name + ": "
  }

  /** The entry appended to the conversation: `f"{speaker.name}: {response}"`. */
  function Entry(bot: ChatBot, response: string): string {
    Tag(bot) + response
  }

  /** An entry starts with its speaker's tag, and the rest of it is the response. */
  lemma EntryParts(bot: ChatBot, response: string)
    ensures Tag(bot) <= Entry(bot, response)
    ensures Entry(bot, response)[|Tag(bot)|..] == response
  {
  }

  /** The message delivered to the chat: `f"[{time_stamp}] {speaker.emoji} **{speaker.name}**: {response}"`. */
  function FormatTurn(timeStamp: string, bot: ChatBot, response: string): string {
    "[" + timeStamp + "] " + bot.emoji + " **" + bot.name + "**: " + response
  }

  /** The delivered message ends with the response. */
  lemma FormatTurnEndsWithResponse(timeStamp: string, bot: ChatBot, response: string)
    ensures var m := FormatTurn(timeStamp, bot, response);
      |response| <= |m| && m[|m| - |response|..] == response
  {
  }

  /** Entry `i` of the conversation was spoken by the bot of turn `i`. */
  ghost predicate SpokenBy(conversation: seq<string>, i: nat)
    requires i < |conversation|
  {
    Tag(Speaker(i)) <= conversation[i]
  }

  /** Every entry was spoken by the bot whose turn it was. */
  ghost predicate Alternates(conversation: seq<string>) {
    forall i: nat | i < |conversation| :: SpokenBy(conversation, i)
  }

  /** Recording the next turn's entry keeps the conversation alternating. */
  lemma AlternatesAppend(conversation: seq<string>, response: string)
    requires Alternates(conversation)
    ensures Alternates(conversation + [Entry(Speaker(|conversation|), response)])
  {
    var c := conversation + [Entry(Speaker(|conversation|), response)];
    forall i: nat | i < |c|
      ensures SpokenBy(c, i)
    {
      if i < |conversation| {
        assert SpokenBy(conversation, i);
        assert c[i] == conversation[i];
      }
    }
  }

  /** In an alternating conversation no entry is spoken by the speaker of the
      entry before it. */
  lemma NoSpeakerTwiceInARow(conversation: seq<string>, i: nat)
    requires Alternates(conversation)
    requires i + 1 < |conversation|
    ensures !(Tag(Speaker(i)) <= conversation[i + 1])
  {
    var e := conversation[i + 1];
    assert SpokenBy(conversation, i + 1);
    assert Tag(Speaker(i + 1))[0] == e[0];
    assert Tag(Speaker(i))[0] != Tag(Speaker(i + 1))[0];
  }
}
