# LINE gift-drip bot — a Dafny model

This project models the message handler of a LINE chat bot (`app.py`). The
bot greets a new user and offers a gift button. When a known user asks for the
gift, it replies with the gift text and schedules a five-message drip campaign.
It also answers "activated" and "rose" messages and replies to anything else
with a fixed fallback text.

The model has five modules:

- `Wrappers`: `Option` and `Result`.
- `Text`: the Python string operations the handler uses.
  - `str.strip()` is modelled with Python's whitespace set.
  - `str.lower()` is modelled as ASCII case folding.
  - The substring test `p in s` is modelled, together with its characterisation "some window of `s` equals `p`".
- `Router`: the branch choice as a pure function `Route(isNew, text)`. It is proved to pick the first matching rule in the fixed order greeting, gift, activated, rose path, fallback.
- `Drip`: the campaign that `schedule_messages` hands to the scheduler.
  - The offsets are a parameter. The live demo values are 30, 60, 70, 90 and 92 seconds. The commented-out production values are 24h, 48h, 48h 10m, 72h and 72h 10m.
  - `Enrol` is the run of `add_job` calls, including a `KeyError` part-way through.
- `Bot`:
  - `Handle` is one call of `handle_message`, written as a step on a state value. The state is the `user_joined` map and the list of scheduled jobs.
  - `Run` is a sequence of such calls.
  - The class `ChatBot` keeps the same state in mutable fields. Its methods `HandleMessage`, `ScheduleMessages` and `AddJob` follow the source statement by statement. They are proved to take exactly the step `Handle` and `Enrol` describe.

The message catalogue (`messages.json`) is a `map<string, string>`. A missing
key is modelled as the `KeyError` the lookup raises, with the source's partial
effects:

- A new sender is recorded before the greeting lookup, so a missing greeting still records them.
- Jobs added before the first missing drip key stay scheduled.

## Model

| member | source | states |
|---|---|---|
| Text.Strip | app.py:71 | the result is a slice of the input that neither starts nor ends with whitespace, and every character cut off on either side is whitespace |
| Text.StripIdempotent | app.py:71 | stripping an already stripped text changes nothing |
| Text.StripKeepsTrimmed | app.py:71 | a text without whitespace at either end is its own stripped form |
| Text.LowerAt | app.py:89 | lower-casing works character by character, folding only `A`..`Z` |
| Text.LowerIdempotent | app.py:89 | a lower-cased text has no capitals left and lower-casing it again changes nothing |
| Text.LowerKeepsLowercase | app.py:89 | a text without capitals is its own lower-case form |
| Text.StartsWithIffPrefix | app.py:101 | the character-by-character prefix test holds exactly when the pattern equals the leading slice of the text |
| Text.ContainsIffOccurs | app.py:101-112 | `p in s` holds exactly when some window of `s` equals `p` |
| Text.NotContainsMissingChar | app.py:101-112 | a pattern holding a character the text lacks does not occur in the text |
| Text.ContainsAt | app.py:101-112 | a pattern found at an index makes the substring test true |
| Router.RouteIsFirstMatch | app.py:74-128 | the branch taken matches its own trigger, and no branch tried earlier matches |
| Router.FirstMatchUnique | app.py:74-128 | any rule that matches and comes first among matching rules is the branch taken, so the branches are exclusive |
| Router.NewSenderGreeted | app.py:74-86 | a new sender gets the greeting branch whatever the text, "gift" included |
| Router.GiftWordsCarryNoMarkers | app.py:89-112 | a gift word contains neither the activation nor the rose markers, so the gift rule never competes with them |
| Router.GiftExamples | app.py:89 | "GIFT", "Receive Gift" and the gift emoji take the gift branch, because the match ignores case |
| Router.GiftPleaseFallsBack | app.py:89 | "gift please" is not a gift request, because membership is exact, and it falls through to the fallback |
| Router.ActivatedBeatsRose | app.py:101-120 | "activated rose" matches the rose test too, yet takes the activated branch |
| Router.ProseIsRose | app.py:112 | "prose" takes the rose path, because "rose" is a substring test |
| Router.RoseEmojiIsRose | app.py:112 | the rose emoji alone survives stripping and takes the rose path |
| Drip.BothOffsetTablesAscending | app.py:140-174 | both the demo and the production offsets are positive and strictly increasing |
| Drip.Enrol | app.py:137-175 | the batch never holds more jobs than the campaign has steps, and every job is addressed to the requesting user |
| Drip.EnrolSpec | app.py:137-175 | job i is campaign step i, with its key, looked-up text and `now` plus its offset; the batch completes exactly when every key is present, otherwise it stops at the first missing key and names it |
| Drip.EnrolStopsAt | app.py:137-175 | the run adds exactly the jobs before the first missing key |
| Drip.FullBatch | app.py:137-175 | with all drip messages present the batch is exactly the five jobs day1_reminder, day2_invite, day2_blessing, day3_teaser, rose_path at their five offsets |
| Drip.BatchFiresInOrder | app.py:141-174 | with ascending offsets the batch's fire times are all later than `now` and strictly increasing |
| Bot.Handle | app.py:69-128 | the branch is the router's choice on the stripped text. The sender ends up in `user_joined`, and earlier entries keep their join times. Only the greeting changes `user_joined` and only the gift branch adds jobs. Old jobs stay as a prefix, and at most five jobs are added, all for the sender |
| Bot.FirstMessageGreets | app.py:74-86 | a new sender is recorded with the current time and gets the greeting with the gift button, whatever the text; no job is scheduled; a missing greeting raises `KeyError` after the sender is recorded |
| Bot.KnownSenderGiftIff | app.py:71-89 | for a known sender, the gift branch fires exactly when the stripped, lower-cased text is one of the three gift words; jobs change only then; `user_joined` never changes |
| Bot.GiftRequestEnrols | app.py:89-176 | when the gift text and the five drip messages are in the catalogue, a gift request from a known sender replies with the gift text and appends the five campaign jobs for the sender, in order; with ascending offsets they fire after `now` in strictly increasing order |
| Bot.EveryMessageAnswered | app.py:80-128 | with a complete catalogue every message is answered with its branch's catalogue text or the fallback text, and only the greeting carries the gift button |
| Bot.GiftButtonRequestsGift | app.py:78 | the text the gift button sends is a gift request |
| Bot.JoinedOnlyGrows | app.py:74-75 | over any run of messages handled one after another, `user_joined` only grows, join times are never overwritten, and every sender ends up joined |
| Bot.NeverGreetedTwice | app.py:74 | when messages are handled one after another, a user who has sent a message is never greeted again |
| Bot.RepeatedGiftRequests | app.py:89-175 | when the gift text and the five drip messages are in the catalogue, k gift requests from a known user add exactly 5·k jobs for that user, keep the earlier jobs as a prefix, and leave `user_joined` alone; nothing deduplicates |
| Bot.RoseEmojiAnswered | app.py:112-120 | a known sender who sends the rose emoji gets the rose-path reply, and the state is unchanged |
| Bot.WelcomeGiftRoseScenario | app.py:69-176 | new user: a first message gets the greeting, "gift" gets the gift reply and five jobs with the first at `now`+30, and the rose emoji gets the rose path with the state unchanged |
| Bot.ChatBot.constructor | app.py:46-48 | a freshly started process has nobody joined and no jobs scheduled |
| Bot.ChatBot.HandleMessage | app.py:69-128 | the fields, the branch taken and the reply or `KeyError` are exactly those of `Handle` on the old state |
| Bot.ChatBot.ScheduleMessages | app.py:133-176 | the job list grows by exactly the batch `Enrol` describes, and the missing key it reports is the batch's |
| Bot.ChatBot.AddJob | app.py:137-143 | a present key appends one job with the looked-up text; a missing key appends nothing and is reported |

## Left out

- The Flask `/callback` route, header reading and webhook signature check (app.py:53-63) are HTTP transport and not part of this model.
- The LINE Messaging API calls `reply_message` and `push_message` (app.py:80-85, 92-97, 103-108, 114-119, 123-128, 178-184) are network calls. The model returns the reply instead of sending it.
- APScheduler's background thread that fires jobs at their run date, and `send_message` (app.py:47-48, 178-184), are concurrency inside a library. The model keeps only the list of jobs handed to the scheduler.
- The rich-menu setup and image upload (app.py:189-231) are remote I/O and not part of this model.
- Loading the environment and `messages.json` (app.py:23-41) is not modelled. The catalogue is a parameter.
- Durability, restart recovery, exactly-once firing, retries and deduplication are not modelled. The code does none of these, and the model claims none of them. A second gift request schedules a second batch of five. The production offsets exist only as the commented-out lines at app.py:140, 149, 156, 165 and 173.
- `datetime.now()` is a parameter `now`, one reading per message. The source reads the clock at app.py:75 on the greeting branch and at app.py:134 on the gift branch. The greeting returns at app.py:86, so each message reads the clock at most once and the model loses nothing.
- Concurrent handling is not modelled. `app.run(port=5000, debug=True)` (app.py:242) serves the webhook with Flask's server, which handles requests on separate threads. The membership test and the insert at app.py:74-75 are not atomic, so two near-simultaneous first messages from one user can both be greeted. The model treats `handle_message` calls as serialized. Bot.JoinedOnlyGrows and Bot.NeverGreetedTwice describe sequential handling only.
- Text.Lower: folds only the ASCII capitals. Python's `str.lower()` also folds non-ASCII letters. No non-ASCII letter lowers to a string that completes an ASCII keyword, so the branch taken is unchanged for the words the handler tests.
- Drip.Job: keeps the catalogue key beside the looked-up text so lemmas can name the campaign order. The source passes only the text to the scheduler.
- The job identity, the `"date"` trigger and the `send_message` callable passed to `add_job` are not modelled. Every job is a one-shot push of its text.
