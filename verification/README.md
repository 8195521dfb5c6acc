# Auto-chat theatre: a verified model of its command and loop state machine

The modelled program is a Telegram bot, the "AI auto-conversation theatre".
After a user registers an OpenAI key with `/setkey`, `/chat` starts a play in
which two fixed speakers, 민지 and 준호, take turns answering each other.
The completion service generates each answer, and every turn is posted to the
chat until `/stop`.

Under the Telegram and HTTP code sits a small state machine over three
module-level dictionaries:
- the stored key of each user;
- a per-user flag meaning "the next text message is a key";
- a record per chat holding `active`, `conversation`, `turn` and `api_key`.

This project models that state machine and proves the properties below.

- `keys.dfy` (module `Keys`) models the text side of key entry. It defines
  Python's `str.strip()` with the exact white-space set of `str.isspace()`, and
  the key-format test (prefix `sk-`, more than 20 characters).
- `bots.dfy` (module `Bots`) holds the pure parts of one turn:
  - the two speakers, and the choice of speaker by turn parity;
  - the last-six history window (`xs[-6:]`) and `"\n".join`;
  - the empty-key short-circuit of `ChatBot.get_response`;
  - the recorded entry `"<name>: <response>"` and the delivered message.
- `theatre.dfy` (module `Theatre`) has the class `Registry`. Its three `map`
  fields stand for the three dictionaries. It has one method per handler
  (`/setkey`, a text message, `/chat`, `/stop`), `Step`, which is one pass of
  the conversation loop, `Advance`, one iteration of the loop body, and `Run`,
  the loop itself. The pure function `Pass` describes what one pass does to a
  chat record, and `Step` is proved to do exactly that. The pure function
  `Play` folds `Pass` over a sequence of deliveries, feeding each reply back
  in as the next message, and `Run` is proved to do exactly that. The object invariant `Valid()` says two things. Every
  stored key passed the format test and is stripped. Every chat record is well
  formed: its number of entries equals `turn`, its entries alternate between
  the two speakers starting with 민지, and its key is well formed.

The completion service is the parameter `complete` of `Step`, a function from
(personality, message, history, key) to the reply text. Each of the loop's two
sends (the turn and the turn-20 milestone) either succeeds or raises. `Step`
takes these two outcomes as the booleans `sendOk` and `milestoneOk`. The clock
reading in the formatted message is the parameter `timeStamp`. `Run` takes one
`Delivery` (clock reading and the two send outcomes) per pass. The random pick
of the opening line is the parameter `topicChoice` of `StartAutoChat`.

In the code, a send that raises stops the play at once: the exception
handler of the loop marks the chat inactive (main.py:263-266).

## Model

| member | source | states |
|---|---|---|
| Keys.TrimStart | main.py:144 | the result does not start with white space and is no longer than the input |
| Keys.TrimEnd | main.py:144 | the result does not end with white space, is no longer than the input, and a non-empty result keeps the first character |
| Keys.TrimStartDropsSpaceOnly | main.py:144 | the left-stripped text is a suffix of the input, and everything dropped before it is white space |
| Keys.TrimEndDropsSpaceOnly | main.py:144 | the right-stripped text is a prefix of the input, and everything dropped after it is white space |
| Keys.Strip | main.py:144 | the stripped message has no white space at either end and is no longer than the input |
| Keys.StripSurrounding | main.py:144 | for every text with no white space at its ends, stripping it after adding any white space around it gives back exactly that text |
| Keys.StripIdempotent | main.py:144 | stripping an already stripped text changes nothing, so a stored key sent again is stored unchanged |
| Keys.ValidKeyIsNonEmpty | main.py:147 | a key that passes the `sk-`/length test is non-empty, so the later `if not api_key` test treats it as present |
| Bots.Speaker | main.py:233 | the speaker of every turn is one of the two cast members |
| Bots.ConsecutiveSpeakersDiffer | main.py:233 | consecutive turns have different speakers, and the speaker repeats every two turns |
| Bots.LastNIsTail | main.py:236 | `xs[-n:]` has exactly `min(n, len(xs))` elements (all of them for `n == 0`, where the slice is `xs[0:]`) and is the tail of `xs` in its original order |
| Bots.LastNAfterAppend | main.py:236 | after one entry is appended, the window is the old window plus that entry, with the oldest entry dropped once the window is full |
| Bots.JoinEnds | main.py:236 | a non-empty join starts with the first line and ends with the last line |
| Bots.JoinAppend | main.py:236 | joining one more line appends the separator and that line |
| Bots.RecentHistoryBounds | main.py:236 | the history is empty for an empty conversation; otherwise it starts with the oldest entry in the six-entry window and ends with the latest entry |
| Bots.EmptyKeyShortCircuit | main.py:23-25 | with an empty key the reply is the fixed "key not set" text, whatever the backend would answer, so no request is made |
| Bots.EntryParts | main.py:249 | the recorded entry starts with "<speaker name>: ", and the rest of it is the response |
| Bots.FormatTurnEndsWithResponse | main.py:241 | the delivered message ends with the response |
| Bots.AlternatesAppend | main.py:249 | appending the entry of the speaker chosen for the next turn keeps the conversation alternating |
| Bots.NoSpeakerTwiceInARow | main.py:233 | in an alternating conversation, no entry starts with the tag of the speaker of the entry before it |
| Theatre.RecordedKeepsWellFormed | main.py:249-250 | appending the speaker's entry and incrementing `turn` keeps `len(conversation) == turn` and the alternation |
| Theatre.ReplaceKeepsChatsWellFormed | main.py:192-197 | putting a well-formed record in place keeps every chat record well formed |
| Theatre.PassAsksBackend | main.py:232-241 | on a running play the key is never empty, so the speaker's line is the backend's answer for the speaker's personality, the current message and the recent history; the first message sent is that answer formatted, and it ends with the answer |
| Theatre.PassDeliveryFailure | main.py:243-266 | when the turn's send raises, the play is deactivated and `turn`, the conversation and the key are unchanged |
| Theatre.PassRecordsOneTurn | main.py:249-252 | a delivered turn appends exactly the entry "<speaker name>: <reply>", which starts with the speaker's tag and continues with the reply; it increments `turn` by one, keeps the key, and the reply becomes the next message |
| Theatre.PassMilestone | main.py:257-266 | the milestone message is sent, as the second message, exactly when the turn was delivered and `turn + 1 == 20`; the play stays active after a delivered turn unless that milestone send raises |
| Theatre.PassKeepsWellFormed | main.py:229-266 | a pass keeps `len(conversation) == turn`, the alternation and the key's format |
| Theatre.PassExtendsHistory | main.py:243-250 | a pass only appends to the conversation, adds one to `turn` exactly when the turn was delivered, and keeps the key |
| Theatre.StoreKeepsKeysValid | main.py:147-148 | storing a stripped key that passed the format test keeps every stored key valid |
| Theatre.Registry.constructor | main.py:82-83 | all three dictionaries start empty, and the invariant holds |
| Theatre.Registry.CheckApiKey | main.py:85-86 | returns the stored key exactly when one exists, and a stored key always passes the format test and is non-empty |
| Theatre.Registry.SetApiKey | main.py:120-122 | the user's waiting flag becomes true, and the stored keys and chat records are unchanged |
| Theatre.Registry.HandleMessage | main.py:142-174 | a waiting user's stripped text is stored as the key exactly when it passes the format test. The flag is disarmed in both cases. A user who is not waiting changes nothing. Chat records never change |
| Theatre.Registry.StartAutoChat | main.py:176-215 | nothing changes without a stored key or while the chat's play is active. Otherwise the chat's record becomes active, with an empty conversation, turn 0 and the user's current key, replacing any stopped record. The opening line is the chosen topic |
| Theatre.Registry.StopAutoChat | main.py:217-227 | nothing changes if the chat has no active play. Otherwise only `active` becomes false, and the reported count equals `turn`, which equals the number of conversation entries |
| Theatre.Registry.Step | main.py:229-266 | with no record or an inactive play nothing happens. Otherwise the chat's record and the outcome are exactly those of `Pass`, no other chat changes, and neither key dictionary changes. The invariant is kept |
| Theatre.Play | main.py:229-266 | a run makes at most one pass per delivery, stops early only when the play is no longer active, and leaves an inactive record untouched |
| Theatre.PlayFeedsReply | main.py:238-252 | on a well-formed running record, when the first pass goes on, the second pass is asked with the first pass's reply from the backend (`current_message = response`). When the second pass also goes on, the rest of the run is asked with the second reply, and the run makes two more passes than that rest |
| Theatre.PlayCountsTurns | main.py:243-250 | a run only appends to the conversation, keeps the key, and increases `turn` by exactly the number of its passes whose turn was delivered |
| Theatre.PlayKeepsWellFormed | main.py:229-266 | a run keeps `len(conversation) == turn`, the alternation and the key's format |
| Theatre.Registry.Advance | main.py:231-252 | one iteration of the loop body on a running chat: no other chat and neither key dictionary changes, and the run from this delivery on the old record equals one pass more than the run from the next delivery on the new record with the returned message |
| Theatre.Registry.Run | main.py:229-266 | without a record for the chat nothing changes and no pass is made. Otherwise the chat's final record and the number of passes are exactly those of `Play` from the opening line, so each reply is the next pass's message. No other chat and neither key dictionary changes |

## Left out

- The OpenAI request in `ChatBot.get_response` is abstracted as the function
  parameter `complete`. This covers the headers, the system prompt, the JSON
  body and its decoding, the 401 reply and the generic error reply. The
  function also stands for those fixed error texts, which the source returns
  as ordinary replies.
- Telegram I/O is not modelled. This covers the replies of every handler, the
  deletion of the key message, the `/start` welcome text with its key status,
  the `/setkey` guide, handler registration and `run_polling`. Each handler's
  reply is modelled only as the datatype value its method returns.
- `asyncio.create_task` and `asyncio.sleep` are not modelled. `Run` stands for
  the loop, with one `Delivery` per pass. Its number of passes is bounded by
  the deliveries it is given, while the source loops until the play stops.
- The random wait is not modelled. The random opening line is modelled as the
  index `topicChoice`.
- Concurrency is not modelled, because `Step` is atomic:
  - A `/stop` during the sleep between a turn's send and the milestone check
    still lets the milestone be sent.
  - A task stopped and then restarted while sleeping can find the new active
    record and run beside the new task.
- Logging is not modelled.
- Registry.HandleMessage: the model assumes every handler reply succeeds. In
  the source the rejection reply (main.py:164-167) is sent before the flag is
  cleared (main.py:168), so a reply that raises leaves the flag set; the model
  always clears it.
- Registry.StartAutoChat: the model assumes every handler reply succeeds. In
  the source the start reply (main.py:209-213) is sent after the record is
  made active and before the loop task is created (main.py:215), so a reply
  that raises leaves an active record with no loop running, and later `/chat`
  commands are refused until `/stop`; the model reports `Started`.
- The completion backend `complete` is one fixed function, so identical
  inputs always get identical replies. The source samples at temperature 0.9
  (main.py:55), so its replies vary; no property here depends on them.
- Step: the clock reading is a parameter, not `datetime.now()`.
