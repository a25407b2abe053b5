# minha-dz alert bot, modelled in Dafny

The minha-dz bot is a Telegram bot. It watches the registration page of
Algeria's unemployment grant ("minha"). It tells its subscribers when the page
changes, and it answers a few commands and simple questions in Arabic, French
or English. This project models the bot's deterministic core and proves what
that core promises. Two versions of the bot are modelled:

- `main.py` is the deployed bot. Its subscriber set is saved to storage after every change.
- `algeria_minha_telegram_bot_one_click_ready.py` is an earlier single-file version.
  It keeps subscribers only in memory, falls back to English for an unknown language,
  answers `/stop` from a non-subscriber separately, checks the `ok` flag of
  `getUpdates`, and lets a failed send raise.

Modules, in dependency order:

- `Wrappers`: the `Option` type.
- `Text`: the string operations the bot relies on.
  - `str.lower()` (`LowerChar`, `Lower`).
  - The first token of `str.split()` (`FirstToken`).
  - The `k in t` substring test (`Contains`).
  - The `any(...)` scans (`ContainsAny`, `AnyCharIn`).
  - Small predicates for ruling keywords out of fixed strings.
- `Language`: the classifier `detect_language` (`DetectLanguage`), which both versions
  share, and `Table`, a per-language reply table with the two lookups the
  code uses: `table[lang]` (`Index`, which fails on an unknown tag) and
  `table.get(lang, table['en'])` (`GetOrEnglish`).
- `Commands`: the `WELCOME` and help tables and the command router.
  A text is a command when it starts with `/`. The command is its lower-cased first token.
- `Telegram`: the values that cross the network boundary.
  - Inbound updates and outbound sends.
  - One pass of the `for upd in ...` loop of
    `updates_loop` as a function (`RunBatch`). It is generic in the step that processes one update.
  - The `if OFFSET:` guard (`OffsetParam`), and the fact that, when update ids are non-negative (Telegram's are), the cursor left by a pass is sent with the next request.
- `Broadcasting`: `notify_all_subscribers`. It loops over the subscriber set, and each send succeeds or fails on its own.
- `Monitor`: the change detector of `monitor_loop`. `Tick` is one tick. A whole run is related to the changes between successive fetches.
- `MainBot`: `main.py`.
  - `ai_reply` and `process_update` are written as functions (`AiReply`, `Step`).
  - A class `Bot` holds the subscriber set, its stored copy `persisted`, the
    snapshot and the cursor. Its methods `ProcessUpdate`, `MonitorTick` and
    `PollTick` change that state in place and are proved against the functions.
- `OneClickBot`: the earlier version, with the same structure.
- `Variants`: lemmas that compare the two versions.

Network results are inputs:
- the fetched page is `Option<string>`, where `None` means `requests.get` raised;
- the decoded `getUpdates` reply is `Option<Response>`;
- for a broadcast, the set of chats whose sends fail is a parameter;
- for the earlier version's replies, the set of update ids whose reply fails to send is a parameter, so each post fails or succeeds on its own.

Sends are outputs: sequences of `Outgoing(chat, text)`. An exception that leaves
`process_update` is the `raised` flag of a `StepResult`. The `for` loop stops
there, and the cursor has already moved past that update.

Three behaviours of the code that are easy to miss:

- The monitor treats the body of every response as page content. It never checks the
  HTTP status, because `requests.get` raises only for network errors.
  So an HTTP error page counts as content; only a raised request leaves the snapshot alone.
- In `main.py`, `/stop` answers in French for every tag other than `ar` and `en`.
  The dictionaries used for `/minha`, `/help` and `ai_reply` raise `KeyError` for such a tag.
  Neither case can happen with a tag from `detect_language` (`AiReplyAnswersDetectedLanguage`).
- `if OFFSET:` treats a cursor of 0 like no cursor (`OffsetParam`).

## Model

| member | source | states |
|---|---|---|
| `Text.IsSpace` | main.py:119 | the `str.isspace` set that `split()` cuts on: space, tab and the line breaks are in it, and no capital and no `/` is |
| `Text.LowerChar` | main.py:25 | one character of `lower()`: capitals of ASCII and Latin-1 move down by 32, every other character is unchanged, and the result is below 0x100 whenever it changed |
| `Text.Lower` | main.py:25 | `lower()` keeps the length and lower-cases each character in place |
| `Text.LowerOfNoUpper` | main.py:59 | a string without capitals is unchanged by `lower()` |
| `Text.FirstToken` | main.py:119 | `split()[0]` of a text that starts with a non-space: a prefix of the text with no whitespace, ended by the end of the text or by whitespace |
| `Text.FirstTokenOf` | main.py:119 | the first token of a space-free word followed by nothing or by whitespace is that word |
| `Text.StartsWith` | main.py:118 | `t.startswith(k)` holds exactly when `k` occurs in `t` at position 0 |
| `Text.Contains` | main.py:28 | `k in t` holds exactly when `k` occurs in `t` at some position |
| `Text.ContainsAny` | main.py:60 | `any(x in t for x in ks)` holds exactly when some keyword occurs in `t` |
| `Text.AnyCharIn` | main.py:26 | `any(ch in letters for ch in t)` holds exactly when some character of `t` is in the set |
| `Text.ContainsTransitive` | algeria_minha_telegram_bot_one_click_ready.py:56 | a text that contains a phrase contains every substring of it |
| `Text.RuledOutExcludes` | main.py:60 | a keyword longer than the text, or whose first two characters never stand side by side in the text, is not in the text |
| `Language.DetectLanguage` | main.py:24-30 | the result is one of the three tags; "ar" exactly when the text has an Arabic letter; "fr" exactly when it has none and some French keyword is in the lower-cased text; "en" otherwise; the empty text is "en" |
| `Language.ArabicLettersInArabicBlock` | main.py:21 | every letter of `ARABIC_LETTERS` lies in U+0621..U+064A |
| `Language.LowerKeepsArabic` | main.py:25-26 | lower-casing neither adds nor removes Arabic letters, so testing the lower-cased text is testing the text |
| `Language.ArabicLetterWins` | main.py:25-27 | one Arabic letter anywhere makes the text "ar", whatever surrounds it |
| `Language.FrenchKeywordWins` | main.py:28-29 | without Arabic letters, a French keyword in the lower-cased text makes it "fr" |
| `Language.Table.Index` | main.py:125-129 | `table[lang]` gives the entry for each of the three tags and fails for any other tag |
| `Language.Table.GetOrEnglish` | main.py:121 | `table.get(lang, table['en'])` gives the tag's entry, and the English entry for any other tag |
| `Commands.CommandOf` | main.py:120-141 | each handler is chosen by exactly its command words: `/start`; `/minha`; `/stop` or `/unsubscribe`; `/help` or `/aide` |
| `Commands.IsCommandText` | main.py:118 | `text.startswith('/')` holds exactly when the text is not empty and its first character is `/`, so the empty text is chat text |
| `Commands.Route` | main.py:118-143 | a text that does not start with `/` is chat text |
| `Commands.RouteByFirstWord` | main.py:119 | a command word followed by nothing or whitespace routes by that word alone, whatever follows |
| `Commands.FirstTokenOfLower` | main.py:119 | the first token of the lower-cased text is the lower-cased first token |
| `Commands.RouteIgnoresCase` | main.py:119 | routing a text and routing its lower-cased form give the same handler |
| `Commands.MinhaRoutesToSubscribe` | main.py:122 | `/minha` routes to subscribe |
| `Commands.UpperCaseMinhaSubscribes` | main.py:119-123 | `/MINHA foo` routes to subscribe |
| `Telegram.Sender` | main.py:113-115 | an update has a sender exactly when it has a message with a chat id, and the sender is that id |
| `Telegram.TextOf` | main.py:113-114 | the text is the message's text when it has one, and the empty string when the message or its text is missing |
| `Telegram.RunBatch` | main.py:155-157 | a pass takes a prefix of the updates; an empty batch changes nothing; otherwise the cursor is the last taken `update_id + 1`; a pass that did not stop early took every update |
| `Telegram.QuietBatchConsumedInFull` | main.py:155-157 | when no update can raise, the whole batch is taken and the cursor ends past the last update |
| `Telegram.OffsetParam` | main.py:151-152 | the cursor is sent exactly when it is present and not 0 |
| `Telegram.NextRequestCarriesCursor` | main.py:150-157 | after a pass over updates with non-negative ids, the cursor is past the last update taken and the next request sends it |
| `Broadcasting.BroadcastStep` | main.py:87-88 | sending to one more not-yet-served chat extends a broadcast by that chat |
| `Broadcasting.Broadcast` | main.py:87-88 | one send of the text to each subscriber, no chat twice, in some order; the sends that arrive are those to the reachable subscribers |
| `Monitor.AlertText` | main.py:83 | the alert ends with the monitored URL |
| `Monitor.Tick` | main.py:94-104 | a failed fetch changes nothing and does not alert; a successful fetch becomes the snapshot; it alerts exactly when a snapshot existed and the content differs from it |
| `Monitor.RepeatedContentIsSilent` | main.py:99 | the same content fetched twice in a row alerts at most once |
| `Monitor.RunTicks` | main.py:93-105 | over any run of ticks there is at most one alert per tick, and the snapshot ends as the last content fetched, or as it started when every fetch failed |
| `Monitor.AlertsAreChanges` | main.py:93-105 | over any run, the number of alerts is the number of changes between successive successful fetches, counted from the starting snapshot; the run ends with the last content fetched |
| `Monitor.FailedFetchesChangeNothing` | main.py:103-104 | a run of failed fetches keeps the snapshot and never alerts |
| `MainBot.AiReply` | main.py:58-76 | the answer exists exactly for the three tags; timing keywords give the timing answer; otherwise documents keywords give the documents answer; otherwise the general answer |
| `MainBot.TimingBeforeDocuments` | main.py:60-66 | a text that matches both groups gets the timing answer |
| `MainBot.AiReplyAnswersDetectedLanguage` | main.py:58-76 | the answer exists for every language that `detect_language` can return |
| `MainBot.UnsubscribedText` | main.py:133 | the `/stop` reply is Arabic for "ar", English for "en", and French for every other tag |
| `MainBot.Reply` | main.py:121-141 | the closing `send_message` of a branch: with a reply, exactly one send of it to the chat and no exception; when the `[lang]` lookup failed, a `KeyError` and no send; the subscriber set is as the branch left it |
| `MainBot.Step` | main.py:110-143 | an update without a message changes nothing and sends nothing; it raises exactly when the message has no chat id; otherwise exactly one reply goes to the sender |
| `MainBot.SubscribeAddsSender` | main.py:122-129 | after `/minha` the sender is subscribed and nobody else changes; a second `/minha` gives the same result |
| `MainBot.UnsubscribeRemovesSender` | main.py:130-133 | after `/stop` or `/unsubscribe` the sender is gone and nobody else changes; a non-subscriber leaves the set as it was and gets the same reply as a subscriber |
| `MainBot.OtherTextsKeepSubscribers` | main.py:118-143 | every other command and all chat text leave the subscriber set unchanged |
| `MainBot.ReplyFollowsRoute` | main.py:116-143 | the one reply to a sender is the route's text in the detected language: the welcome, the subscribe confirmation, the `/stop` reply, the help table or `ai_reply` |
| `MainBot.MinhaIsEnglish` | main.py:24-30 | `/minha` is classified as English |
| `MainBot.MinhaScenario` | main.py:122-129 | chat 100 sending `/minha` to an empty set is subscribed and receives "Subscription activated." |
| `MainBot.Bot.constructor` | main.py:33-43 | start-up loads the stored list, or the empty set when there is none; storage equals the set |
| `MainBot.Bot.Save` | main.py:39-41 | after saving, storage equals the in-memory set |
| `MainBot.Bot.ProcessUpdate` | main.py:110-143 | the new set and the sends are those of `Step`; storage still equals the set afterwards |
| `MainBot.Bot.MonitorTick` | main.py:94-104 | storage still equals the set; the snapshot moves as `Tick` says; on an alert the Arabic alert goes once to each current subscriber; otherwise nothing is sent |
| `MainBot.Bot.PollTick` | main.py:149-157 | the request carries the cursor exactly as `OffsetParam` says; a failed request changes nothing; otherwise set, cursor and sends are those of `RunBatch` over the result list, and storage still equals the set |
| `OneClickBot.AiReply` | algeria_minha_telegram_bot_one_click_ready.py:53-73 | same group order as the deployed bot, and every tag gets an answer: the tag's entry, or English for an unknown tag |
| `OneClickBot.UnknownTagGetsEnglish` | algeria_minha_telegram_bot_one_click_ready.py:56-73 | any tag other than "ar" and "fr" gets its group's English answer |
| `OneClickBot.Send` | algeria_minha_telegram_bot_one_click_ready.py:40-42 | one post of the text to the chat; it raises exactly when that post fails, and the subscriber change made before it stands |
| `OneClickBot.Step` | algeria_minha_telegram_bot_one_click_ready.py:124-167 | an update without a message changes nothing; exactly one reply goes to the sender; it raises exactly when the chat id is missing or this update's send fails |
| `OneClickBot.StepWith` | algeria_minha_telegram_bot_one_click_ready.py:182-185 | the step `updates_loop` runs raises for an update exactly when it has a message and either no chat id or a failing send of its own, told by its id |
| `OneClickBot.FailedSendOnlyRaises` | algeria_minha_telegram_bot_one_click_ready.py:40-42 | a failing send changes only whether the update raises: the subscriber change and the reply are those of a send that gets through |
| `OneClickBot.OneChatTwoOutcomes` | algeria_minha_telegram_bot_one_click_ready.py:182-185 | of two updates from one chat, the first can be answered while the second's send fails: both are taken and answered, the pass ends at the second and the cursor moves past it |
| `OneClickBot.ReplyFollowsRoute` | algeria_minha_telegram_bot_one_click_ready.py:133-167 | the one reply to a sender is the route's text in the detected language, English for any other tag: the welcome, the subscribe confirmation, the help table or `ai_reply` |
| `OneClickBot.SubscribeConfirmsInLanguage` | algeria_minha_telegram_bot_one_click_ready.py:138-146 | `/minha` adds the sender, touches nobody else, and confirms in the detected language |
| `OneClickBot.UnsubscribeOnlyWhenSubscribed` | algeria_minha_telegram_bot_one_click_ready.py:147-152 | a subscribed sender is removed and gets the Arabic reply; a non-subscriber leaves the set unchanged and is told "You are not subscribed." |
| `OneClickBot.OtherTextsKeepSubscribers` | algeria_minha_telegram_bot_one_click_ready.py:133-167 | `/start`, `/help`, unknown commands and chat text leave the subscriber set unchanged |
| `OneClickBot.Bot.constructor` | algeria_minha_telegram_bot_one_click_ready.py:81-82 | start-up has no subscribers and no snapshot |
| `OneClickBot.Bot.ProcessUpdate` | algeria_minha_telegram_bot_one_click_ready.py:124-167 | the new set and the sends are those of `Step`, even when the send raises after the set changed |
| `OneClickBot.Bot.MonitorTick` | algeria_minha_telegram_bot_one_click_ready.py:89-117 | the trigger fires exactly when a snapshot existed and the content differs; the snapshot moves as `Tick` says; a fired trigger tries every subscriber, and a failed send does not stop the rest |
| `OneClickBot.Bot.PollTick` | algeria_minha_telegram_bot_one_click_ready.py:174-188 | the request carries the cursor exactly as `OffsetParam` says; a failed request, or a reply whose `ok` flag is false, changes nothing; otherwise set, cursor and sends are those of `RunBatch`, each update's send failing or not on its own |
| `Variants.TimingGroupsAgree` | algeria_minha_telegram_bot_one_click_ready.py:56 | the earlier timing group recognises exactly the texts the deployed one does, because its extra phrase contains "متى" |
| `Variants.SubscribersAgree` | algeria_minha_telegram_bot_one_click_ready.py:136-152 | both versions change the subscriber set in the same way for every update, whether or not the earlier version's send fails |
| `Variants.UnknownTagHandling` | algeria_minha_telegram_bot_one_click_ready.py:56-73 | for an unknown tag the deployed `ai_reply` fails while the earlier one answers in English |
| `Variants.DocumentsPhraseOnlyInEarlyVariant` | algeria_minha_telegram_bot_one_click_ready.py:62 | "واش لازم" gets the documents answer from the earlier version and the general answer from the deployed one |

## Left out

- Network I/O is not modelled: `send_message`, `getUpdates`, the page fetch and JSON decoding. Their results are inputs and their calls are outputs.
- File storage is not modelled. `load_subscribers` is the constructor's optional stored list. `save_subscribers` assigns the abstract `persisted` field; the JSON file format is not modelled. A `save_subscribers` that raises (main.py:39-41, called at 123-124 and 131-132) is outside the model: the set has already changed, no reply is sent, and the model always saves successfully.
- The health server, the threads, `time.sleep` and the `while True` loops are not modelled. The model covers one tick of each loop; the monitor lemmas cover finite runs of ticks.
  The two threads share `SUBSCRIBERS` without synchronisation. That sharing is not modelled: each method runs alone.
- Configuration is not modelled: the environment variables, the interval, the port and the check for a missing token. The monitored URL is a constructor parameter.
- `Text.Lower` covers only ASCII and Latin-1 capitals. Full Unicode case mapping is out of scope, including characters whose lower case is longer. The Arabic letters have no case either way.
- `Text.FirstToken` splits on Python's `str.isspace` characters. It is used only on texts that start with `/`, where `split()[0]` is the first run of non-space characters.
- The French and English alert texts are not modelled. Both versions build them but only ever send the Arabic one.
- An update without `update_id` is not modelled. Telegram always sends one, and `upd['update_id']` would raise before the cursor moves.
- Sends in `main.py` never raise, because `send_message` catches every error. Only a missing chat id raises in `MainBot.Step`.
- The README text embedded at the end of the earlier file is documentation, not logic.
