/** The command handlers of the auto-chat theatre and one pass of its
    conversation loop, over the three module-level dictionaries of main.py:
    the stored key of each user, the per-user "next text is a key" flag, and
    the record of each chat's play. */
module Theatre {
  import opened Keys
  import opened Bots

  type UserId = int
  type ChatId = int

  datatype Option<T> = None | Some(value: T)

  /** One chat's entry of `active_chats`. */
  datatype ChatRecord = ChatRecord(active: bool, conversation: seq<string>, turn: nat, apiKey: string)

  /** The reply of handle_message. */
  datatype KeyReply = KeySaved | KeyRejected | Greeting

  /** The reply of start_auto_chat; `Started` carries the opening line handed to the loop. */
  datatype StartOutcome = KeyMissing | AlreadyActive | Started(opening: string)

  /** What one pass of the conversation loop did.
      `Exited`: the loop condition was false (or the chat had no record), nothing happened.
      `Continued`: the turn was delivered and recorded; `next` is the loop's next input message.
      `Aborted`: a send raised; the chat was deactivated and the loop ends.
      `sent` lists the messages handed to the chat, in order. */
  datatype StepOutcome =
    | Exited
    | Continued(sent: seq<string>, next: string)
    | Aborted(sent: seq<string>)

  /** The opening lines of a new play, one of which is picked at random. */
  const StartTopics: seq<string> := [
    "안녕! 오늘 하루 어땠어?",
    "요즘 재밌는 일 있어?",
    "날씨가 정말 좋네요!",
    "혹시 좋아하는 음악 있나요?",
    "최근에 본 영화 추천해주실래요?"
  ]

  /** The turn after which the milestone message is sent. */
  const MilestoneTurn: nat := 20

  const MilestoneMessage: string := "🎉 20턴 달성! 대화가 재밌게 흘러가네요!"

  /** Every recorded turn is one conversation entry, entries alternate between
      the two speakers, and the play runs on a well-formed key. */
  ghost predicate WellFormed(r: ChatRecord) {
    |r.conversation| == r.turn && Alternates(r.conversation) && IsValidKey(r.apiKey)
  }

  /** Every chat record is well formed. */
  ghost predicate ChatsWellFormed(chats: map<ChatId, ChatRecord>) {
    forall c | c in chats :: WellFormed(chats[c])
  }

  /** Putting a well-formed record in place keeps all records well formed. */
  lemma ReplaceKeepsChatsWellFormed(chats: map<ChatId, ChatRecord>, chat: ChatId, r: ChatRecord)
    requires ChatsWellFormed(chats)
    requires WellFormed(r)
    ensures ChatsWellFormed(chats[chat := r])
  {
  }

  /** The record after a delivered turn: the speaker's entry appended
      (`conversation.append(...)`) and the turn counted (`turn += 1`). */
  function Recorded(r: ChatRecord, response: string): ChatRecord {
    r.(conversation := r.conversation + [Entry(Speaker(r.turn), response)], turn := r.turn + 1)
  }

  /** Recording a turn keeps a record well formed: one more entry, one more
      turn, and the new entry is by the speaker whose turn it was. */
  lemma RecordedKeepsWellFormed(r: ChatRecord, response: string)
    requires WellFormed(r)
    ensures WellFormed(Recorded(r, response))
  {
    AlternatesAppend(r.conversation, response);
  }

  /** The backend's answer for the next turn of `r`: asked in the voice of the
      speaker whose turn it is, with the loop's current message as input, the
      last six entries as history and the play's key. */
  function Reply(r: ChatRecord, message: string, complete: Completion): string {
    complete(Speaker(r.turn).personality, message, RecentHistory(r.conversation), r.apiKey)
  }

  /** What one pass of the loop leaves behind: the chat's new record and the outcome. */
  datatype PassResult = PassResult(record: ChatRecord, outcome: StepOutcome)

  /** One pass of the body of auto_conversation_loop over the chat record `r`:
      ask the speaker of turn `r.turn`, send the formatted turn, record it, and
      send the milestone message after turn 20. A send that raises ends the pass
      with the play deactivated. */
  function Pass(r: ChatRecord, message: string, timeStamp: string, complete: Completion,
                sendOk: bool, milestoneOk: bool): PassResult
  {
    var speaker := Speaker(r.turn);
    var response := speaker.GetResponse(message, RecentHistory(r.conversation), r.apiKey, complete);
    var turnMessage := FormatTurn(timeStamp, speaker, response);
    if !sendOk then
      PassResult(r.(active := false), Aborted([turnMessage]))
    else if r.turn + 1 != MilestoneTurn then
      PassResult(Recorded(r, response), Continued([turnMessage], response))
    else if milestoneOk then
      PassResult(Recorded(r, response), Continued([turnMessage, MilestoneMessage], response))
    else
      PassResult(Recorded(r, response).(active := false), Aborted([turnMessage, MilestoneMessage]))
  }

  /** A running play always holds a well-formed key, so a pass never takes the
      "key not set" short cut: the speaker's line is the backend's answer. */
  lemma PassAsksBackend(r: ChatRecord, message: string, timeStamp: string, complete: Completion,
                        sendOk: bool, milestoneOk: bool)
    requires WellFormed(r)
    ensures Speaker(r.turn).GetResponse(message, RecentHistory(r.conversation), r.apiKey, complete)
            == Reply(r, message, complete)
    ensures Pass(r, message, timeStamp, complete, sendOk, milestoneOk).outcome.sent[0]
            == FormatTurn(timeStamp, Speaker(r.turn), Reply(r, message, complete))
    ensures var m, reply := Pass(r, message, timeStamp, complete, sendOk, milestoneOk).outcome.sent[0], Reply(r, message, complete);
      |reply| <= |m| && m[|m| - |reply|..] == reply
  {
    ValidKeyIsNonEmpty(r.apiKey);
    FormatTurnEndsWithResponse(timeStamp, Speaker(r.turn), Reply(r, message, complete));
  }

  /** A send that raises before the turn is recorded deactivates the play and
      leaves its turn counter and conversation as they were. */
  lemma PassDeliveryFailure(r: ChatRecord, message: string, timeStamp: string, complete: Completion, milestoneOk: bool)
    ensures var p := Pass(r, message, timeStamp, complete, false, milestoneOk);
      && p.outcome.Aborted?
      && !p.record.active
      && p.record.turn == r.turn
      && p.record.conversation == r.conversation
      && p.record.apiKey == r.apiKey
  {
  }

  /** A delivered turn is recorded: exactly one entry, "<speaker>: <reply>", is
      appended, the turn counter grows by exactly one, and when the loop
      continues its next input message is that reply. */
  lemma PassRecordsOneTurn(r: ChatRecord, message: string, timeStamp: string, complete: Completion, milestoneOk: bool)
    requires WellFormed(r)
    ensures var p := Pass(r, message, timeStamp, complete, true, milestoneOk);
      var reply := Reply(r, message, complete);
      && p.record.conversation == r.conversation + [Speaker(r.turn).name + ": " + reply]
      && p.record.turn == r.turn + 1
      && p.record.apiKey == r.apiKey
      && (p.outcome.Continued? ==> p.outcome.next == reply)
    ensures var p := Pass(r, message, timeStamp, complete, true, milestoneOk);
      var tag, entry := Tag(Speaker(r.turn)), p.record.conversation[r.turn];
      tag <= entry && entry[|tag|..] == Reply(r, message, complete)
  {
    PassAsksBackend(r, message, timeStamp, complete, true, milestoneOk);
    EntryParts(Speaker(r.turn), Reply(r, message, complete));
  }

  /** The milestone message is sent exactly after a delivered turn 20 (when
      `turn + 1 == 20`), right after the turn itself; the play stays active
      after a delivered turn unless that milestone send raises. */
  lemma PassMilestone(r: ChatRecord, message: string, timeStamp: string, complete: Completion,
                      sendOk: bool, milestoneOk: bool)
    requires r.active
    ensures var p := Pass(r, message, timeStamp, complete, sendOk, milestoneOk);
      var milestone := sendOk && r.turn + 1 == MilestoneTurn;
      && |p.outcome.sent| == (if milestone then 2 else 1)
      && (milestone ==> p.outcome.sent[1] == MilestoneMessage)
      && (sendOk ==> (p.record.active <==> !milestone || milestoneOk))
      && (p.outcome.Continued? <==> sendOk && (!milestone || milestoneOk))
  {
  }

  /** A pass keeps the record well formed, so `len(conversation) == turn` and
      the alternation of speakers hold for as long as the play exists. */
  lemma PassKeepsWellFormed(r: ChatRecord, message: string, timeStamp: string, complete: Completion,
                            sendOk: bool, milestoneOk: bool)
    requires WellFormed(r)
    ensures WellFormed(Pass(r, message, timeStamp, complete, sendOk, milestoneOk).record)
  {
    var response := Speaker(r.turn).GetResponse(message, RecentHistory(r.conversation), r.apiKey, complete);
    RecordedKeepsWellFormed(r, response);
  }

  /** A pass never rewrites history: the old conversation is a prefix of the
      new one, the turn counter never decreases, and the key is kept. */
  lemma PassExtendsHistory(r: ChatRecord, message: string, timeStamp: string, complete: Completion,
                           sendOk: bool, milestoneOk: bool)
    ensures var p := Pass(r, message, timeStamp, complete, sendOk, milestoneOk).record;
      && r.conversation <= p.conversation
      && p.turn == r.turn + (if sendOk then 1 else 0)
      && p.apiKey == r.apiKey
  {
  }

  /** What the environment does during one pass: the clock reading and whether
      the turn's send and the milestone send succeed. */
  datatype Delivery = Delivery(timeStamp: string, sendOk: bool, milestoneOk: bool)

  /** How many of the deliveries `ds[from..to]` deliver their turn. */
  function Delivered(ds: seq<Delivery>, from: nat, to: nat): (n: nat)
    requires from <= to <= |ds|
    ensures n <= to - from
    decreases |ds| - from
  {
    if from == to then 0
    else (if ds[from].sendOk then 1 else 0) + Delivered(ds, from + 1, to)
  }

  /** What a whole run of the loop leaves behind: the chat's final record and
      the number of passes made. */
  datatype PlayResult = PlayResult(record: ChatRecord, passes: nat)

  /** The loop of auto_conversation_loop over the record `r`, from delivery `i`
      on: while the play is active and deliveries remain, make a pass and feed
      its reply back in as the next message (`current_message = response`). */
  function Play(r: ChatRecord, message: string, complete: Completion, ds: seq<Delivery>, i: nat): (play: PlayResult)
    requires i <= |ds|
    ensures i + play.passes <= |ds|
    ensures i + play.passes < |ds| ==> !play.record.active
    ensures !r.active ==> play == PlayResult(r, 0)
    decreases |ds| - i
  {
    if i == |ds| || !r.active then PlayResult(r, 0)
    else
      var p := Pass(r, message, ds[i].timeStamp, complete, ds[i].sendOk, ds[i].milestoneOk);
      var next := if p.outcome.Continued? then p.outcome.next else message;
      var rest := Play(p.record, next, complete, ds, i + 1);
      PlayResult(rest.record, rest.passes + 1)
  }

  /** A run on an active record with deliveries left is the pass `p` followed
      by the run from the next delivery, on the pass's record and with its
      reply as the message. */
  lemma PlayUnfold(r: ChatRecord, message: string, complete: Completion, ds: seq<Delivery>, i: nat, p: PassResult)
    requires i < |ds| && r.active
    requires p == Pass(r, message, ds[i].timeStamp, complete, ds[i].sendOk, ds[i].milestoneOk)
    ensures var next := if p.outcome.Continued? then p.outcome.next else message;
      var rest := Play(p.record, next, complete, ds, i + 1);
      Play(r, message, complete, ds, i) == PlayResult(rest.record, rest.passes + 1)
  {
  }

  /** A pass on a well-formed running record that goes on hands the run from
      the next delivery the backend's reply as its message. */
  lemma PassFeedsReply(r: ChatRecord, message: string, complete: Completion, ds: seq<Delivery>, i: nat)
    requires i < |ds| && r.active && WellFormed(r)
    ensures var p := Pass(r, message, ds[i].timeStamp, complete, ds[i].sendOk, ds[i].milestoneOk);
      p.outcome.Continued? ==>
        var rest := Play(p.record, Reply(r, message, complete), complete, ds, i + 1);
        Play(r, message, complete, ds, i) == PlayResult(rest.record, rest.passes + 1)
  {
    var d := ds[i];
    PassAsksBackend(r, message, d.timeStamp, complete, d.sendOk, d.milestoneOk);
    PlayUnfold(r, message, complete, ds, i, Pass(r, message, d.timeStamp, complete, d.sendOk, d.milestoneOk));
  }

  /** The loop feeds the backend's answer forward (`current_message =
      response`): when the first pass goes on, the second pass is asked with
      the first pass's reply, and when that one goes on too, the rest of the
      run is asked with the second reply. */
  lemma PlayFeedsReply(r: ChatRecord, message: string, complete: Completion, ds: seq<Delivery>, i: nat)
    requires i + 1 < |ds| && r.active && WellFormed(r)
    ensures var p := Pass(r, message, ds[i].timeStamp, complete, ds[i].sendOk, ds[i].milestoneOk);
      var reply := Reply(r, message, complete);
      var q := Pass(p.record, reply, ds[i + 1].timeStamp, complete, ds[i + 1].sendOk, ds[i + 1].milestoneOk);
      p.outcome.Continued? && q.outcome.Continued? ==>
        var rest := Play(q.record, Reply(p.record, reply, complete), complete, ds, i + 2);
        Play(r, message, complete, ds, i) == PlayResult(rest.record, rest.passes + 2)
  {
    var d := ds[i];
    var p := Pass(r, message, d.timeStamp, complete, d.sendOk, d.milestoneOk);
    PassFeedsReply(r, message, complete, ds, i);
    if p.outcome.Continued? {
      PassKeepsWellFormed(r, message, d.timeStamp, complete, d.sendOk, d.milestoneOk);
      PassFeedsReply(p.record, Reply(r, message, complete), complete, ds, i + 1);
    }
  }

  /** A run only appends to the conversation, keeps the key, and advances
      `turn` by exactly the number of its passes whose turn was delivered. */
  lemma {:induction false} PlayCountsTurns(r: ChatRecord, message: string, complete: Completion, ds: seq<Delivery>, i: nat)
    requires i <= |ds|
    ensures var play := Play(r, message, complete, ds, i);
      && r.conversation <= play.record.conversation
      && play.record.turn == r.turn + Delivered(ds, i, i + play.passes)
      && play.record.apiKey == r.apiKey
    decreases |ds| - i
  {
    if i < |ds| && r.active {
      var d := ds[i];
      var p := Pass(r, message, d.timeStamp, complete, d.sendOk, d.milestoneOk);
      var next := if p.outcome.Continued? then p.outcome.next else message;
      PassExtendsHistory(r, message, d.timeStamp, complete, d.sendOk, d.milestoneOk);
      PlayCountsTurns(p.record, next, complete, ds, i + 1);
    }
  }

  /** A run keeps the record well formed. */
  lemma {:induction false} PlayKeepsWellFormed(r: ChatRecord, message: string, complete: Completion, ds: seq<Delivery>, i: nat)
    requires i <= |ds|
    requires WellFormed(r)
    ensures WellFormed(Play(r, message, complete, ds, i).record)
    decreases |ds| - i
  {
    if i < |ds| && r.active {
      var d := ds[i];
      var p := Pass(r, message, d.timeStamp, complete, d.sendOk, d.milestoneOk);
      var next := if p.outcome.Continued? then p.outcome.next else message;
      PassKeepsWellFormed(r, message, d.timeStamp, complete, d.sendOk, d.milestoneOk);
      PlayKeepsWellFormed(p.record, next, complete, ds, i + 1);
    }
  }

  /** Only stripped keys that passed the format test are ever stored. */
  ghost predicate StoredKeysValid(keys: map<UserId, string>) {
    forall u | u in keys :: IsValidKey(keys[u]) && Stripped(keys[u])
  }

  /** Storing a stripped, well-formed key keeps the stored keys valid. */
  lemma StoreKeepsKeysValid(keys: map<UserId, string>, user: UserId, key: string)
    requires StoredKeysValid(keys)
    requires IsValidKey(key) && Stripped(key)
    ensures StoredKeysValid(keys[user := key])
  {
  }

  /** `user_id in waiting_for_api_key and waiting_for_api_key[user_id]`. */
  predicate IsWaiting(waiting: map<UserId, bool>, user: UserId) {
    user in waiting && waiting[user]
  }

  /** `chat_id in active_chats and active_chats[chat_id]['active']`. */
  predicate IsRunning(chats: map<ChatId, ChatRecord>, chat: ChatId) {
    chat in chats && chats[chat].active
  }

  /** The three module-level dictionaries and the handlers that update them. */
  class Registry {
    var userApiKeys: map<UserId, string>
    var waitingForApiKey: map<UserId, bool>
    var activeChats: map<ChatId, ChatRecord>

    /** Only keys that passed the format test are stored, and every chat record is well formed. */
    ghost predicate Valid()
      reads this
    {
      && StoredKeysValid(userApiKeys)
      && ChatsWellFormed(activeChats)
    }

    /** The state at process start: all three dictionaries empty. */
    constructor ()
      ensures Valid()
      ensures userApiKeys == map[] && waitingForApiKey == map[] && activeChats == map[]
    {
      userApiKeys := map[];
      waitingForApiKey := map[];
      activeChats := map[];
    }

    /** check_api_key: the user's stored key, if any; a stored key always passes the format test. */
    function CheckApiKey(user: UserId): (key: Option<string>)
      reads this
      requires Valid()
      ensures key.Some? <==> user in userApiKeys
      ensures key.Some? ==> key.value == userApiKeys[user] && IsValidKey(key.value) && key.value != ""
    {
      if user in userApiKeys then Some(userApiKeys[user]) else None
    }

    /** set_api_key (/setkey): arm the user's waiting flag; nothing else changes. */
    method SetApiKey(user: UserId)
      requires Valid()
      modifies this
      ensures Valid()
      ensures waitingForApiKey == old(waitingForApiKey)[user := true]
      ensures userApiKeys == old(userApiKeys) && activeChats == old(activeChats)
    {
      waitingForApiKey := waitingForApiKey[user := true];
    }

    /** handle_message: a text from a waiting user is taken as a key after
        stripping; it is stored when it passes the format test, and the flag is
        disarmed either way. A text from anyone else changes nothing. */
    method HandleMessage(user: UserId, text: string) returns (reply: KeyReply)
      requires Valid()
      modifies this
      ensures Valid()
      ensures activeChats == old(activeChats)
      ensures !IsWaiting(old(waitingForApiKey), user) ==>
        && reply == Greeting
        && userApiKeys == old(userApiKeys)
        && waitingForApiKey == old(waitingForApiKey)
      ensures IsWaiting(old(waitingForApiKey), user) ==>
        waitingForApiKey == old(waitingForApiKey)[user := false]
      ensures IsWaiting(old(waitingForApiKey), user) && IsValidKey(Strip(text)) ==>
        reply == KeySaved && userApiKeys == old(userApiKeys)[user := Strip(text)]
      ensures IsWaiting(old(waitingForApiKey), user) && !IsValidKey(Strip(text)) ==>
        reply == KeyRejected && userApiKeys == old(userApiKeys)
    {
      if IsWaiting(waitingForApiKey, user) {
        var messageText := Strip(text);
        if KeyPrefix <= messageText && |messageText| > MinKeyLength {
          StoreKeepsKeysValid(userApiKeys, user, messageText);
          userApiKeys := userApiKeys[user := messageText];
          waitingForApiKey := waitingForApiKey[user := false];
          reply := KeySaved;
        } else {
          reply := KeyRejected;
          waitingForApiKey := waitingForApiKey[user := false];
        }
      } else {
        reply := Greeting;
      }
    }

    /** start_auto_chat (/chat): refuse without a key or while the chat's play
        runs; otherwise replace the chat's record with a fresh running one on the
        user's current key, whatever history a stopped play left behind.
        `topicChoice` stands for the random pick of the opening line. */
    method StartAutoChat(user: UserId, chat: ChatId, topicChoice: nat) returns (out: StartOutcome)
      requires Valid()
      requires topicChoice < |StartTopics|
      modifies this
      ensures Valid()
      ensures userApiKeys == old(userApiKeys) && waitingForApiKey == old(waitingForApiKey)
      ensures user !in old(userApiKeys) ==> out == KeyMissing && activeChats == old(activeChats)
      ensures user in old(userApiKeys) && IsRunning(old(activeChats), chat) ==>
        out == AlreadyActive && activeChats == old(activeChats)
      ensures user in old(userApiKeys) && !IsRunning(old(activeChats), chat) ==>
        && out == Started(StartTopics[topicChoice])
        && activeChats == old(activeChats)[chat := ChatRecord(true, [], 0, old(userApiKeys)[user])]
    {
      var apiKey := CheckApiKey(user);
      if apiKey.None? || apiKey.value == "" {
        return KeyMissing;
      }
      if chat in activeChats && activeChats[chat].active {
        return AlreadyActive;
      }
      activeChats := activeChats[chat := ChatRecord(true, [], 0, apiKey.value)];
      out := Started(StartTopics[topicChoice]);
    }

    /** stop_auto_chat (/stop): with no running play, nothing changes and `None`
        is returned; otherwise the play is marked inactive, its counters and
        history are kept, and the reported count is the number of turns. */
    method StopAutoChat(chat: ChatId) returns (turnCount: Option<nat>)
      requires Valid()
      modifies this
      ensures Valid()
      ensures userApiKeys == old(userApiKeys) && waitingForApiKey == old(waitingForApiKey)
      ensures !IsRunning(old(activeChats), chat) ==> turnCount == None && activeChats == old(activeChats)
      ensures IsRunning(old(activeChats), chat) ==>
        && activeChats == old(activeChats)[chat := old(activeChats)[chat].(active := false)]
        && turnCount == Some(old(activeChats)[chat].turn)
        && turnCount.value == |activeChats[chat].conversation|
    {
      if chat !in activeChats || !activeChats[chat].active {
        return None;
      }
      activeChats := activeChats[chat := activeChats[chat].(active := false)];
      turnCount := Some(activeChats[chat].turn);
    }

    /** One pass of auto_conversation_loop for `chat`, with `message` the loop's
        current input: the loop test, then the body described by `Pass`. The
        pass starts only while the chat's play is active, and it touches no
        other chat and neither key dictionary. `sendOk` and `milestoneOk` say
        whether the turn's send and the milestone send succeed; `timeStamp` is
        the formatted clock reading. */
    method Step(chat: ChatId, message: string, timeStamp: string, complete: Completion,
                sendOk: bool, milestoneOk: bool)
      returns (out: StepOutcome)
      requires Valid()
      modifies this
      ensures Valid()
      ensures userApiKeys == old(userApiKeys) && waitingForApiKey == old(waitingForApiKey)
      ensures !IsRunning(old(activeChats), chat) ==> out == Exited && activeChats == old(activeChats)
      ensures IsRunning(old(activeChats), chat) ==>
        var p := Pass(old(activeChats)[chat], message, timeStamp, complete, sendOk, milestoneOk);
        activeChats == old(activeChats)[chat := p.record] && out == p.outcome
    {
      if chat !in activeChats || !activeChats[chat].active {
        return Exited;
      }
      var r := activeChats[chat];
      var speaker := Speaker(r.turn);
      var recentHistory := RecentHistory(r.conversation);
      var response := speaker.GetResponse(message, recentHistory, r.apiKey, complete);
      var formatted := FormatTurn(timeStamp, speaker, response);
      var next: ChatRecord;
      if !sendOk {
        next := r.(active := false);
        out := Aborted([formatted]);
      } else {
        next := r.(conversation := r.conversation + [Entry(speaker, response)], turn := r.turn + 1);
        if r.turn + 1 != MilestoneTurn {
          out := Continued([formatted], response);
        } else if milestoneOk {
          out := Continued([formatted, MilestoneMessage], response);
        } else {
          next := next.(active := false);
          out := Aborted([formatted, MilestoneMessage]);
        }
      }
      PassKeepsWellFormed(r, message, timeStamp, complete, sendOk, milestoneOk);
      ReplaceKeepsChatsWellFormed(activeChats, chat, next);
      activeChats := activeChats[chat := next];
    }

    /** One iteration of auto_conversation_loop's `while` body for delivery
        `i`: a pass, then `current_message = response` when the loop goes on.
        The run from delivery `i` is this pass followed by the run from
        delivery `i + 1` on the new record with the returned message. */
    method Advance(chat: ChatId, message: string, complete: Completion, ds: seq<Delivery>, i: nat)
      returns (next: string)
      requires Valid()
      requires i < |ds| && IsRunning(activeChats, chat)
      modifies this
      ensures Valid()
      ensures userApiKeys == old(userApiKeys) && waitingForApiKey == old(waitingForApiKey)
      ensures chat in activeChats && activeChats == old(activeChats)[chat := activeChats[chat]]
      ensures var rest := Play(activeChats[chat], next, complete, ds, i + 1);
        Play(old(activeChats)[chat], message, complete, ds, i) == PlayResult(rest.record, rest.passes + 1)
    {
      var d := ds[i];
      ghost var r := activeChats[chat];
      var out := Step(chat, message, d.timeStamp, complete, d.sendOk, d.milestoneOk);
      PlayUnfold(r, message, complete, ds, i, PassResult(activeChats[chat], out));
      next := if out.Continued? then out.next else message;
    }

    /** auto_conversation_loop: starting from `opening`, keep making passes
        while the chat's play is active, feeding each reply back in as the next
        message. `deliveries` supplies the environment of each pass; the run
        ends when the play is no longer active or the deliveries run out, and
        `passes` counts the passes made. Without a record for the chat the
        loop's first test fails and nothing changes. */
    method Run(chat: ChatId, opening: string, complete: Completion, deliveries: seq<Delivery>)
      returns (passes: nat)
      requires Valid()
      modifies this
      ensures Valid()
      ensures userApiKeys == old(userApiKeys) && waitingForApiKey == old(waitingForApiKey)
      ensures chat !in old(activeChats) ==> passes == 0 && activeChats == old(activeChats)
      ensures chat in old(activeChats) ==>
        var play := Play(old(activeChats)[chat], opening, complete, deliveries, 0);
        activeChats == old(activeChats)[chat := play.record] && passes == play.passes
    {
      passes := 0;
      if chat !in activeChats {
        return;
      }
      ghost var start := activeChats[chat];
      var message := opening;
      while passes < |deliveries| && activeChats[chat].active
        invariant Valid()
        invariant passes <= |deliveries|
        invariant userApiKeys == old(userApiKeys) && waitingForApiKey == old(waitingForApiKey)
        invariant chat in activeChats && activeChats == old(activeChats)[chat := activeChats[chat]]
        invariant var rest := Play(activeChats[chat], message, complete, deliveries, passes);
          Play(start, opening, complete, deliveries, 0) == PlayResult(rest.record, passes + rest.passes)
      {
        message := Advance(chat, message, complete, deliveries, passes);
        passes := passes + 1;
      }
    }
  }
}
