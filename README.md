# Aurora: a verified model of the call-handling core

Aurora is a voice and chat assistant for field workers. A worker calls
(Twilio), speaks to a LiveKit room or writes to a Telegram bot. Each piece
of speech is sent to a language model together with the conversation so
far. The model answers with a reply ending in `[URGENCY: level]` and
`[SOURCES: ...]` tags. The servers speak the reply without the tags. They
log an alert for critical and urgent replies and record every exchange in
the ledger of active calls that the admin dashboard reads.

This project models that core in Dafny and proves properties of it. The
servers receive speech already transcribed as text and answer with text;
the speech recognition and synthesis calls around them are not modelled
(see "Left out").

| file | module | what it models |
|---|---|---|
| `text.dfy` | `Optional`, `PyText` | the Python string operations the core uses: `strip`, `lower`, `upper`, `find`, `replace`, `rstrip('/')`, `split('_', 1)`, `isdigit`, `:04d`, truthiness |
| `reply.dfy` | `Chat`, `TaggedReply`, `KeywordReply` | `generate_response`: the request, the tag parser, the fail-safe fallback, and the keyword variant in `aurora_livekit.py` |
| `conversations.dfy` | `Conversations` | `ConversationManager` as a class over a map of sessions |
| `speech.dfy` | `Speech` | `process_speech`: the 20-exchange limit, unclear speech, the answer, the alert and the ledger entry |
| `calls.dfy` | `ActiveCalls` | `ActiveCallsManager`: ids, `find_active_call_by_phone`, `add_conversation_entry`, `end_call` and the archive clean-up |
| `inactivity.dfy` | `Inactivity` | `TelegramInactivityManager.check_inactivity` |
| `admin.dfy` | `AdminView` | `get_active_calls` (access filter and stable sort by urgency), `has_access`, and the validation in `create_worker` |
| `config.dfy` | `ConfigCheck` | `validate_config` |
| `stream.dfy` | `EventStream` | the conversation-stream client: `rstrip('/')` of the base URL and the server-sent-events reading loop |
| `telegram.dfy` | `TelegramBot` | the local Telegram bot: `process_message`, the `send_message` and `get_updates` request bodies, and `polling_loop` with its offset |

Things outside the program are inputs:
- the language model is a function `llm` from the request to `Completed(text)` or `Failed`;
- the clock is `now` (seconds), with `stamp` as its text;
- whether a file or database write succeeds is a boolean (`saveOk`, `saves`);
- Firebase's "does this call still exist" answer is `firebaseHasCall`;
- the JSON decoder of the stream client is a predicate `isJson`, and whether the handler of an event type returns normally on a payload (rather than raising) is `handles`;
- whether the call log of an ended conversation can be written is `logSaved`;
- an HTTP answer is an `Option` (None when the request fails).

## Model

| member | source | states |
|---|---|---|
| `Chat.BuildRequest` | main.py:1098-1100 | the request is the system prompt, then the history in order, then the user input |
| `TaggedReply.LevelOf` | main.py:1116-1122 | a tag value, trimmed and lowered, always becomes one of critical/urgent/normal/assistive |
| `TaggedReply.ParseUrgency` | main.py:1111-1125 | the level is always valid, and is "normal" when the reply has no urgency tag |
| `TaggedReply.ParseSources` | main.py:1112-1134 | the sources stay the empty list exactly when the reply has no sources tag |
| `TaggedReply.SpokenTextHasNoTags` | main.py:1136-1140 | the spoken text contains neither tag and is a piece of the reply; a reply without tags is spoken unchanged |
| `TaggedReply.GenerateResponse` | aurora_fastapi.py:428-463 | every answer, failed or not, carries a valid urgency level |
| `TaggedReply.UntaggedReplyPassesThrough` | backend/aurora_twilio.py:456-489 | a reply without tags is spoken verbatim as "normal" with no sources |
| `TaggedReply.FailedCallIsCritical` | main.py:1144-1146 | when the model call fails, the answer is the fallback text, "critical", and "Emergency Procedures Manual" |
| `TaggedReply.FallbackTexts` | aurora_fastapi.py:461-463 | the copies differ only in the fallback text, and each is classified critical |
| `TaggedReply.TaggedRoundTrip` | main.py:1109-1142 | a reply in the shape the prompt requests parses back to its trimmed answer, its level and its trimmed sources |
| `TaggedReply.TruncatedUrgencyTagReadsNormal` | main.py:1116-1122 | a reply cut off inside its urgency tag (no closing `]`) loses the last letter of the level and reads "normal" |
| `KeywordReply.GenerateKeywordResponse` | aurora_livekit.py:194-222 | any input containing an urgent keyword is reported urgent |
| `KeywordReply.KeywordAnywhereIsUrgent` | aurora_livekit.py:203-205 | a keyword in any case, anywhere in the input, even inside a longer word, makes it urgent |
| `KeywordReply.GasketIsUrgent` | aurora_livekit.py:203-205 | "gasket" is reported urgent |
| `KeywordReply.FailedCallIsUrgent` | aurora_livekit.py:220-222 | a failed call answers with the fallback and reports urgent, whatever the input |
| `KeywordReply.UrgentIffKeywordStretch` | aurora_livekit.py:203-205 | an input is urgent exactly when some stretch of it, lowered, is one of the ten keywords |
| `KeywordReply.CompletedCallKeepsText` | aurora_livekit.py:198-218 | a completed call returns the model's text unchanged, and is urgent exactly when some stretch of the input, lowered, is one of the ten keywords |
| `Conversations.Fresh` | main.py:934-943 | a new entry is empty and its exchange counter is consistent at zero |
| `Conversations.MessageKeepsCount` | main.py:945-950 | add_message appends exactly one turn; the counter goes up exactly for a user turn and keeps counting user turns |
| `Conversations.SummaryCountsUserTurns` | main.py:965-983 | the summary's exchange count is the number of user turns it lists, and its duration is under one day |
| `Conversations.UserTurnsBounded` | main.py:945-950 | there are never more user turns than turns |
| `Conversations.PutKeepsConsistent` | main.py:945-950 | replacing one entry keeps every counter consistent with its history |
| `Conversations.ConversationManager.GetConversation` | main.py:934-943 | an absent entry is created empty at `now`; an existing entry is returned unchanged |
| `Conversations.ConversationManager.AddMessage` | main.py:945-950 | one turn is appended; a user turn is one more exchange; the invariant holds |
| `Conversations.ConversationManager.GetHistory` | main.py:952-955 | answers the history, creating the entry if absent |
| `Conversations.ConversationManager.AddCriticalAlert` | main.py:957-963 | one alert stamped `now` is appended |
| `Conversations.ConversationManager.EndConversation` | main.py:965-995 | an unknown id gives None and changes nothing; a known one is summarised and removed once its call log is written; when the write fails the call raises before the removal and the entry stays |
| `Speech.UnclearIsShortStrip` | main.py:1835 | speech is unclear exactly when its stripped length is under 3; empty speech is unclear |
| `Speech.LimitEndsConversation` | main.py:1821-1833 | after 20 exchanges the next speech removes the entry without asking the model, in every copy; when the call log cannot be written the request fails and every entry stays |
| `Speech.UnclearSpeechAddsNothing` | aurora_fastapi.py:620-639 | unclear speech leaves the entry (created if absent) and every other entry as they were |
| `Speech.ExchangeAppendsTwo` | main.py:1845-1850 | an exchange appends the user turn and then the assistant turn, and counts one exchange |
| `Speech.AnsweredExchange` | main.py:1844-1858 | an answered exchange grows the history by the speech and the reply, and logs one alert exactly when the reply is critical or urgent |
| `Speech.RequestRepeatsSpeech` | main.py:1845-1848 | the speech reaches the model twice: as the last history turn and again as the input |
| `Speech.FailedCallLogsAlert` | backend/aurora_twilio.py:645-663 | when the model cannot be reached, the caller hears the fallback and a critical alert is logged |
| `Speech.KeywordAnsweredExchange` | aurora_livekit.py:338-376 | the LiveKit copy logs an alert exactly when the reply is urgent, which every speech naming a keyword is |
| `Speech.AnsweredSessionKeepsBounds` | main.py:1821-1858 | an answered exchange keeps the counter consistent and at most 20 |
| `Speech.TurnKeepsBounds` | main.py:1809-1906 | every path keeps every counter consistent and no call records more than 20 exchanges |
| `Speech.ProcessSpeech` | main.py:1809-1906 | the outcome and the sessions are those of the turn function, including the failed call-log write on the limit path; an answered turn writes the exchange to the ledger; the other paths leave the ledger unchanged |
| `Speech.Answer` | main.py:1845-1858 | the reply is the model's answer to the history ending in the speech; the entry gains both turns and, if alerting, the alert |
| `Speech.RecordReply` | main.py:1850-1858 | the reply is appended to the entry that already ends in the speech, and a critical or urgent reply adds one alert carrying the speech, reply, level and sources |
| `Speech.AddSpeech` | main.py:1845-1847 | the speech is appended and the history read back ends in it |
| `Speech.ProcessKeywordSpeech` | aurora_livekit.py:323-390 | the LiveKit handler follows the keyword turn function |
| `Speech.KeywordAnswer` | aurora_livekit.py:360-376 | the keyword reply is generated from the history ending in the speech; an urgent reply logs an alert |
| `ActiveCalls.ConvIdOfCallId` | main.py:220-228 | the conversation id of a generated call id is "conv_" + clean phone + "_" + stamp |
| `ActiveCalls.MsgIdOfConvId` | main.py:230-232 | a message id is "msg_" + the conversation suffix + "_" + the count on four digits |
| `ActiveCalls.MsgIdsDiffer` | main.py:230-232 | different counts give different message ids |
| `ActiveCalls.FirstActive` | main.py:368-378 | the result is an ACTIVE call of the phone; None means no listed call is ACTIVE for it |
| `ActiveCalls.Reused` | main.py:239-261 | a reused call is always an ACTIVE call of the same phone |
| `ActiveCalls.FailedSaveChangesNothing` | main.py:234-317 | a failed save returns (None, None), and the ledger is kept as it was (saves are all-or-nothing here; see "Left out") |
| `ActiveCalls.AppendTwo` | main.py:282-299 | the messages grow by the user message numbered count+1 and the assistant message numbered count+2, and ids still count up |
| `ActiveCalls.ContinuesCall` | backend/aurora_twilio.py:127-186 | a continued call gains exactly the two messages and the upper-cased urgency; nothing else changes |
| `ActiveCalls.OpensCall` | main.py:234-317 | a new call is ACTIVE for the phone, with the upper-cased urgency, and its conversation holds exactly messages 1 and 2 |
| `ActiveCalls.FirstMessageKeys` | main.py:230-232 | the first two message ids end in "_0001" and "_0002" |
| `ActiveCalls.AddEntryKeepsWellformed` | main.py:234-317 | add_conversation_entry keeps the ledger well formed (ids listed once, calls and conversations linked, message ids in sequence) |
| `ActiveCalls.TelephonyKeepsOneActivePerPhone` | aurora_fastapi.py:120-174 | the telephony managers never give a phone two ACTIVE calls |
| `ActiveCalls.DashboardMayOpenSecondActiveCall` | main.py:246-275 | when Firebase no longer holds the ACTIVE call, main.py opens a second ACTIVE call beside it |
| `ActiveCalls.EndCallEffect` | main.py:380-428 | end_call succeeds exactly for a known id and a successful save; it changes only that call's status to ENDED, and the call is not continued afterwards |
| `ActiveCalls.EndCallKeepsInvariants` | backend/aurora_twilio.py:226-236 | end_call keeps the ledger well formed and at most one ACTIVE call per phone |
| `ActiveCalls.WithoutKeepsDistinct` | main.py:409-415 | removing a call id from the order keeps the ids distinct |
| `ActiveCalls.ArchiveKeepsWellformed` | main.py:409-415 | the archive clean-up removes the call and its conversation, and the rest stays well formed |
| `ActiveCalls.CallLedger.constructor` | main.py:193-204 | a new data file holds two empty dictionaries |
| `ActiveCalls.CallLedger.FindActiveCallByPhone` | main.py:368-378 | the loop finds the first ACTIVE call of the phone in insertion order |
| `ActiveCalls.CallLedger.AddConversationEntry` | main.py:234-317 | the new state and the returned ids are those of the specification, and the well-formedness invariant is kept |
| `ActiveCalls.CallLedger.StartCall` | main.py:239-280 | picks the reused call or opens a new one exactly as the specification does |
| `ActiveCalls.CallLedger.AppendMessages` | main.py:282-313 | appends the two messages and sets the urgency exactly as the specification does |
| `ActiveCalls.CallLedger.EndCall` | main.py:380-428 | the new state and the answer are those of end_call, and the invariants are kept |
| `ActiveCalls.CallLedger.ArchiveCleanup` | main.py:409-415 | the call and its conversation leave both dictionaries; the invariant is kept |
| `Inactivity.WarnedAfterSweep` | main.py:830-889 | after the sweep, a call is warned exactly when it was last seen idle between two and five minutes, or was warned before and was neither ended nor warned |
| `Inactivity.WarningsAreNewlyWarned` | main.py:883-889 | the warning count equals the number of calls newly warned, so no call is warned twice |
| `Inactivity.LedgerAfterSweep` | main.py:830-881 | the sweep ends exactly the watched calls that are a day old or five minutes idle (when the save succeeds) and changes nothing else |
| `Inactivity.EndedCallEndedAgain` | main.py:854-866 | a watched call already ENDED but still listed is ended and counted again by each sweep while over a day old |
| `Inactivity.InactivityMonitor.constructor` | main.py:811-815 | a new manager has warned nobody |
| `Inactivity.InactivityMonitor.CheckInactivity` | main.py:817-899 | the warned set, the ledger and both counters after the loop are those of the sweep over the ledger as it was at the start, and the ledger's invariant is kept |
| `AdminView.VisibleExactly` | main.py:2531-2550 | a row is shown exactly when some stored call the admin may access produces it |
| `AdminView.TakenOverCallHidden` | main.py:2666-2669 | a call taken over by another admin is hidden, whoever its worker is |
| `AdminView.Priority` | main.py:2552-2553 | every urgency gets one of the four sort keys |
| `AdminView.Bucket` | main.py:2552-2553 | a bucket holds only rows of its priority |
| `AdminView.BucketAppend` | main.py:2552-2553 | a bucket of a concatenation is the concatenation of the buckets |
| `AdminView.BucketOfBucket` | main.py:2552-2553 | taking a bucket twice changes nothing, and different buckets share no rows |
| `AdminView.SortIsSorted` | main.py:2552-2553 | the sorted rows are in priority order |
| `AdminView.SortIsPermutation` | main.py:2552-2553 | sorting neither adds nor drops rows |
| `AdminView.SortIsStable` | main.py:2552-2553 | rows of equal priority keep their order |
| `AdminView.SortedIsOwnSort` | main.py:2552-2553 | sorting rows already in order changes nothing |
| `AdminView.StableSortIsUnique` | main.py:2552-2553 | the sort is the only ordered arrangement that keeps each priority's rows in order |
| `AdminView.PriorityDefaults` | main.py:2543-2553 | a call stored without urgency is shown as NORMAL and sorted with NORMAL calls; lower-case levels sort last |
| `AdminView.FilterCalls` | main.py:2531-2550 | the loop builds exactly the visible rows, in stored order |
| `AdminView.GetActiveCalls` | main.py:2510-2553 | the answer is sorted, is a permutation of the visible rows, and keeps each priority's rows in stored order |
| `AdminView.CleanMobile` | main.py:2930 | the cleaned number contains no '+', '-' or ' ' |
| `AdminView.CreatedExactly` | main.py:2929-2946 | a worker is created exactly when the cleaned number is all digits and the id is free; a bad number is rejected before the conflict check |
| `AdminView.CleanIdempotent` | main.py:2930 | cleaning twice is cleaning once |
| `AdminView.SameNumberConflicts` | main.py:2929-2946 | a second request for the same number, written differently, conflicts |
| `AdminView.CleanExample` | main.py:2929-2939 | "+1 5-0" creates worker_150; a number of separators alone is rejected |
| `ConfigCheck.AbsentExactly` | backend/aurora_twilio.py:838-862 | a required name is reported exactly when its setting is unset or empty |
| `ConfigCheck.AbsentInOrder` | backend/aurora_twilio.py:838-862 | missing names are reported in the checking order, each once |
| `ConfigCheck.ValidIffAllSet` | aurora_livekit.py:440-464 | nothing is reported missing exactly when all four settings are set |
| `ConfigCheck.NothingSet` | backend/aurora_twilio.py:838-849 | with nothing set, all four names are reported, in order |
| `ConfigCheck.ValidateConfig` | backend/aurora_twilio.py:838-862 | the missing list is the absent names, and the answer is true exactly when all four are set, which is exactly when the list is empty |
| `EventStream.BaseUrl` | testing/test_conversation_stream.py:20 | the base URL never ends in '/' |
| `EventStream.TrailingSlashIgnored` | testing/test_conversation_stream.py:20 | a trailing slash does not change the stream URL, and stripping twice is stripping once |
| `EventStream.PayloadOfPrefixed` | testing/test_conversation_stream.py:80-89 | the payload of an `event:` or `data:` line is the stripped text after the first ':' |
| `EventStream.DataLine` | testing/test_conversation_stream.py:83-89 | a `data:` line is handled with its stripped payload |
| `EventStream.EmptyLineIgnored` | testing/test_conversation_stream.py:74-75 | an empty line changes nothing |
| `EventStream.EventLineSetsPending` | testing/test_conversation_stream.py:80-81 | an `event:` line only sets the pending event type |
| `EventStream.BadDataKeepsPending` | testing/test_conversation_stream.py:83-89 | data that is not JSON is skipped and the pending type stays |
| `EventStream.GoodDataDispatches` | testing/test_conversation_stream.py:86-119 | JSON data of a known type is handled once; the loop ends exactly when that type is "ended" or "error" or its handler raises; otherwise the pending type is cleared |
| `EventStream.HandledAreKnown` | testing/test_conversation_stream.py:67-119 | only the five known types are ever handled; while the loop runs, every handler call has returned normally and none was for "ended" or "error"; once it has ended, the last call is the one that ended it |
| `EventStream.ClosedReadsNothing` | testing/test_conversation_stream.py:101-109 | nothing is read after the stream is closed |
| `EventStream.RunAppend` | testing/test_conversation_stream.py:67-111 | reading two chunks of lines is reading them in sequence |
| `EventStream.ClosingEventStopsStream` | testing/test_conversation_stream.py:80-119 | an event of a known type whose JSON data ends the loop ("ended", "error", or a handler that raises) is the only call made, and no later line is read |
| `EventStream.FailedHandlerEndsStream` | testing/test_conversation_stream.py:121-124 | after "event: initial" and "data: 5" the initial handler raises on a payload that is not an object; the loop ends and the "ended" event after it is never handled |
| `EventStream.ReadStream` | testing/test_conversation_stream.py:67-119 | the loop's handler calls and whether it ended, by a break or by a handler's exception, are those of the specification |
| `TelegramBot.ProcessMessage` | testing/telegram_api.py:116-192 | every reply goes to the chat the message came from |
| `TelegramBot.AnsweredUnlessEmpty` | testing/telegram_api.py:116-192 | a message is answered exactly when its text is non-empty |
| `TelegramBot.ReplyShapes` | testing/telegram_api.py:116-192 | a reply uses Markdown exactly for a text starting "/help" or "/info" ("/start" coming first); a quoted message is always the incoming one |
| `TelegramBot.EchoCommand` | testing/telegram_api.py:171-183 | for an argument without '/', "/echo" with blank text gives the usage line, otherwise the echoed trimmed text |
| `TelegramBot.PrefixDispatch` | testing/telegram_api.py:125-152 | commands are matched as prefixes: "/helpme" is answered with the help text |
| `TelegramBot.PlainTextEchoed` | testing/telegram_api.py:185-192 | text not starting with '/' is echoed back as a reply to the message |
| `TelegramBot.SendBody` | testing/telegram_api.py:42-51 | the body holds the chat and the text, and parse_mode and reply_to only when given; it reads back as the same message |
| `TelegramBot.UpdatesParams` | testing/telegram_api.py:98-104 | the query has the timeout and the allowed updates, and an offset exactly when it is not zero |
| `TelegramBot.FetchedUpdates` | testing/telegram_api.py:111-113 | a failed request reads as a not-ok, empty answer |
| `TelegramBot.RepliesBounded` | testing/telegram_api.py:203-219 | a batch is answered with at most one message per update |
| `TelegramBot.RepliesAppend` | testing/telegram_api.py:203-219 | the replies to two batches are the replies to each in turn |
| `TelegramBot.MessageBeforeEdit` | testing/telegram_api.py:216-219 | an update with a new message is answered about that message |
| `TelegramBot.NextPollSkipsSeen` | testing/telegram_api.py:211-213 | the next offset is one past the last update of the batch |
| `TelegramBot.Poller.constructor` | testing/telegram_api.py:20 | polling starts from offset 0 |
| `TelegramBot.Poller.HandleBatch` | testing/telegram_api.py:208-219 | the loop sends the batch's replies in order and leaves the offset one past the last update |
| `TelegramBot.Poller.PollOnce` | testing/telegram_api.py:203-219 | one poll's query carries the timeout, the allowed updates and, only when it is non-zero, the offset `last_update_id` itself; the batch is handled only when the answer is ok and non-empty |
| `PyText.RStripChar` | testing/test_conversation_stream.py:20 | removes exactly the trailing run of the character |
| `PyText.RemoveChars` | main.py:222 | no character of the set is left |
| `PyText.RemoveCharsMultiset` | main.py:222 | the result adds no character, and keeps every character outside the set exactly as often as it occurs |
| `PyText.Pad4RoundTrip` | main.py:230-232 | the four-digit count reads back as the count |
| `PyText.Pad4Injective` | main.py:230-232 | different counts give different four-digit texts |

## Left out

- Persistence: the JSON file, Firebase's realtime database and Firestore become the fields of `CallLedger`, the stored calls `AdminView` receives, and a set of existing worker ids. Each write of the ledger, and the call log written when a conversation ends, is a boolean input that says whether it succeeded.
- ActiveCalls.FailedSaveChangesNothing: a failed save is modelled as all-or-nothing, and so is the save of `CallLedger.EndCall`. In the code the ledger lives only in `total.json`, which every call reloads, and `_save_data` opens that file for writing before it dumps. A dump that fails part way therefore leaves a truncated file, and the next call reads it as two empty dictionaries. The model keeps the previous ledger instead, so a failed save after the file was opened is not captured.
- EventStream.ReadStream: lines arrive already decoded. A line that is not valid UTF-8 raises in `decode`, which also ends the loop through the outer `except Exception`; that case is not modelled. The HTTP error and the keyboard interrupt that end it before or during reading are left out as well.
- Outside calls: Twilio's TwiML responses, speech synthesis and recognition, and the LiveKit room are not modelled. The language model is an input function, and what its text says is not modelled.
- The archive thread of `end_call` in main.py: the Firestore copies, the Firebase deletions and the thread itself are left out. Only its final local clean-up is modelled, as `ArchiveCleanup`.
- Scheduling: the inactivity job, the polling loop's sleeps and its `while True` are left out. Each is modelled as one turn that can be repeated.
- Inactivity.InactivityMonitor.CheckInactivity: timestamps are seconds, not parsed ISO texts. A record whose timestamp does not parse is not modelled, and neither is the exception an unparsable start timestamp raises, which ends the whole sweep. The code only prints the warning, so only the warning counter is modelled.
- AdminView.CreatedExactly: `isdigit` is taken on ASCII digits only. Python's `str.isdigit` also accepts other Unicode digits. The Firestore write that follows is not modelled.
- TelegramBot.Poller.HandleBatch: a `send_message` failure is not modelled. In the code it raises out of the batch after the offset has already moved past the failing update, so only that update's reply is lost; the later updates of the batch are fetched again by the next poll.
- TelegramBot.ProcessMessage: a message whose `text` field is present but null is treated like a missing text. A `username` key that is present but null is not distinguished from a missing one.
- AdminView.GetActiveCalls: a row keeps only the call id, worker id, urgency and admin id. The copied mobile number, conversation id, status, medium and the converted timestamps are left out, because the filter and the sort do not read them.
- The server half of the event stream, `get_conversation_snapshot`, `send_photo`, the REST endpoints other than `get_active_calls` and `create_worker`, and `pdf2text.py` are not part of this model.
- PyText.Lower: lowers A-Z and the Kelvin sign, the only characters whose Python lower case is a single ASCII letter. Other letters keep their case. This cannot change whether a level is valid or whether one of the ten keywords occurs, since both are lower-case ASCII words and none ends in 'i' (the only letter that 'İ' produces). It does change what the lowered text is.
- PyText.Upper: upper-cases a-z only. The urgency written to the ledger always comes from a reply level, which is lower-case ASCII, so this is exact on every path of `process_speech`.
- Timestamps written as texts (`strftime`) become the integer `now`, and the call id's time text is an input `stamp`.
