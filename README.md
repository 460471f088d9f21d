# chatspot pairing and bot servers, modelled in Dafny

This project models the core of the chatspot web services: Socket.IO servers that pair anonymous
users for one-to-one chats, and the bot engines that talk to a user when no human partner is found.
Every handler runs to completion before the next one starts, as on Node's event loop. A timer is a
value held in a `pending` map under a fresh token. A handler registers it, `clearTimeout` removes
it, and the timer firing is its own operation. Randomness (`Math.random`), the clock (`Date.now`),
generated ids, HTTP and model responses are parameters of the operations that use them. Wherever
the source updates objects in place, a class mirrors its fields. Each class method is proved to
perform the step that a pure function of the same name describes, and the properties are proved
as lemmas about those functions.

Modules:

- `Text`: the string helpers the source relies on (`trim`, ASCII `toLowerCase`, `includes`,
  `startsWith`, `indexOf`, a first `replace`, `\b` word matches, `||` defaults).
- `WaitQueue`: the insertion-ordered `waitingUsers` map shared by both pairing servers, and
  `isCompatibleMatch`.
- `OldApp`, `OldAppProps`, `OldAppFleet`, `OldAppReply`, `OldAppServer`: `oldApp.js`. This covers the
  queue with 30-second countdowns, the virtual-user pool and its fluctuation, the scripted bot
  conversation (greeting, delivery with typing indicator, follow-ups, goodbye after 20 messages)
  and `generateBotReply`.
- `App`, `AppServer`: `app.js`, the pairing server with the expiring countdown and the disconnect
  scan.
- `IndexSlot`, `SrcIndexSlot`: `index.js` and `src/index.js`, single-slot pairing.
- `ConversationPatterns`: `conversationPatterns.js`, the keyword-driven persona replies.
- `Rephrase`: `rephrase.js`.
- `PersonaBot`, `PersonaBotServer`, `ChromaFallback`, `ChromaFallbackStore`: the memory-backed persona
  bot of `chroma-db-disabled.js` and `botModule_chroma.js`. Both variants are captured by one
  model with a `Variant` switch. It also covers the in-memory fallback collection.
- `BotModule`, `BotModuleServer`: `botModule.js`, the Ollama-backed bot with follow-ups and a
  message limit.
- `HuggingFaceBot`, `HuggingFaceBotServer`: `huggingface-bot.js`.
- `FreeChatBot`, `FreeChatBotServer`: `free-chat-bot.js`.

## Model

| member | source | states |
|---|---|---|
| Text.LeadingSpace | huggingface-bot.js:76 | `trimStart` drops a run of white space at the start, and the first character it keeps is not white space |
| Text.TrailingSpace | huggingface-bot.js:76 | `trimEnd` drops a run of white space at the end, and the last character it keeps is not white space |
| Text.Trim | huggingface-bot.js:76 | the result is no longer than the input and neither starts nor ends with white space |
| Text.TrimIsSlice | huggingface-bot.js:76 | the trim is the slice of the input that starts after the leading white space |
| Text.TrimDropsTrailingSpace | huggingface-bot.js:76 | everything after the trim is white space (everything before it is, by `LeadingSpace`) |
| Text.TrimKeepsOut | huggingface-bot.js:174-176 | trimming introduces no character that was absent |
| Text.TrimUnspaced | huggingface-bot.js:174-176 | text without white space at either end is its own trim |
| Text.TrimEmptyIffBlank | free-chat-bot.js:57 | the trim is empty exactly when the text is all white space, so `!text.trim()` rejects exactly blank messages |
| Text.TrimStartBlank | free-chat-bot.js:57 | an all-white-space text trims to nothing at the start |
| Text.TrimIdempotent | huggingface-bot.js:174-176 | trimming twice is trimming once |
| Text.Lower | free-chat-bot.js:83 | lowercasing keeps the length and maps each character on its own |
| Text.LowerIdempotent | free-chat-bot.js:83 | lowercasing twice is lowercasing once |
| Text.LowerSlice | huggingface-bot.js:175 | lowercasing commutes with slicing |
| Text.Take | botModule.js:187 | `slice(0, n)` keeps the first `n` characters, or all of a shorter text |
| Text.Utf16Length | botModule.js:93 | JavaScript's `length` counts one or two UTF-16 code units per character, and equals the number of characters exactly when none lies above U+FFFF |
| Text.Utf16LengthAppend | botModule.js:93 | the `length` of a concatenation is the sum of the parts' |
| Text.Utf16LengthAstral | botModule.js:93 | a character above U+FFFF, such as an emoji, has `length` 2 |
| Text.SliceFromEnd | botModule.js:166 | `slice(-n)` keeps the last `n` items, and the whole list for `n` = 0 |
| Text.PushCapped | botModule.js:114-119 | after the push and the cut the list holds the newest `cap` items with the new one last |
| Text.Pick | huggingface-bot.js:219 | a random pick is an item of the list |
| Text.FindFrom | conversationPatterns.js:227 | the found position is the first occurrence at or after the start, and none means no occurrence there |
| Text.ContainsAt | conversationPatterns.js:227 | an occurrence at a position means the text contains the word |
| Text.ReplaceFirst | conversationPatterns.js:227-231 | a string `replace` changes nothing without an occurrence and otherwise replaces only the first one |
| Text.FindWordFrom | rephrase.js:3-6 | the found position is the first `\b` word match at or after the start, and none means no match there |
| Text.HasWordAt | conversationPatterns.js:35-56 | a word match at a position means the pattern matches the text |
| Text.ReplaceWordsFromAbsent | rephrase.js:11 | with no match from a position on, a global replace keeps the rest of the text |
| Text.ReplaceWordsAbsent | rephrase.js:11 | a global `\b` replace leaves a text without a match unchanged |
| Text.ReplaceWordsBySelf | rephrase.js:6 | replacing each match by the word itself leaves lowercase text unchanged |
| Text.BeforeFirst | chroma-db-disabled.js:258 | `split(sep)[0]` is the longest prefix without `sep`, followed by `sep` when shorter than the text |
| Text.BeforeFirstPrefix | huggingface-bot.js:175 | the text before the first separator of `body + rest` is `body` when `body` holds none and `rest` starts with one |
| Text.BeforeFirstOf | botModule.js:187 | `split(/[.!?\n]/)[0]` is the longest prefix without a stop, followed by a stop when shorter than the text |
| Text.CollapseSpaces | chroma-db-disabled.js:258 | collapsing white space never lengthens the text |
| Text.CollapseSpacesNoRuns | chroma-db-disabled.js:258 | after `replace(/\s+/g, ' ')` the only white space left is single spaces, never two in a row |
| Text.CollapseHead | chroma-db-disabled.js:258 | collapsing a text that does not start with white space gives one that does not either |
| WaitQueue.CompatibleRule | oldApp.js:709-714 | either interest `"Auto"` makes a match; otherwise each interest must equal the other's gender |
| WaitQueue.CompatibleSymmetric | oldApp.js:709-714 | the match test is symmetric in the two users |
| WaitQueue.Bots | oldApp.js:1007 | the virtual entries of the queue are a sub-list of it, in queue order |
| WaitQueue.IndexOf | oldApp.js:153 | the position of a key is the first entry with that id, and absent exactly when the key is absent |
| WaitQueue.Get | oldApp.js:153 | `has`/`get`: present exactly when an entry has the key, and then that entry |
| WaitQueue.Remove | oldApp.js:182 | `delete` never lengthens the map |
| WaitQueue.FirstCompatibleFrom | oldApp.js:158-167 | the first acceptable (human, compatible) entry in insertion order, or none when no entry qualifies |
| WaitQueue.FirstOnSocketFrom | oldApp.js:582-583 | the first human entry on a socket, or none when no entry uses it |
| WaitQueue.FindCompatible | oldApp.js:158-167 | the loop of `readyToPair` finds exactly the first acceptable entry |
| WaitQueue.FindOnSocket | oldApp.js:582-595 | the `disconnect` loop finds exactly the first entry on the socket |
| WaitQueue.IdsMember | oldApp.js:153 | every stored entry's id is a key of the map |
| WaitQueue.HumanIdsInIds | oldApp.js:159 | the human keys are keys of the map |
| WaitQueue.RemoveIds | oldApp.js:182 | deleting a key removes exactly that key |
| WaitQueue.RemoveHumanIds | oldApp.js:182 | deleting a key removes exactly that key from the human keys |
| WaitQueue.RemoveUnique | oldApp.js:182 | keys stay distinct after `delete` |
| WaitQueue.RemoveSize | oldApp.js:182 | deleting a present key shortens the map by one; an absent key changes nothing |
| WaitQueue.RemoveCutsOut | oldApp.js:182 | `delete` cuts out the key's entry and keeps the order of the rest |
| WaitQueue.BotsAfterRemove | oldApp.js:1068-1075 | the virtual entries after `delete` are the old ones minus that key |
| WaitQueue.BotIds | oldApp.js:1007 | the virtual keys are keys of the map |
| WaitQueue.UpsertIds | oldApp.js:192 | `set` adds exactly its key |
| WaitQueue.UpsertUnique | oldApp.js:192 | keys stay distinct after `set` |
| WaitQueue.UpsertVirtualHumanIds | oldApp.js:80 | setting a virtual entry leaves no human under that key |
| WaitQueue.UpsertPlace | oldApp.js:192 | `set` appends a new key and overwrites a present key in place |
| WaitQueue.DeleteThenSetMovesToEnd | oldApp.js:182-192 | `delete` then `set` of one key moves that key to the end of the iteration order |
| WaitQueue.BotsOfAppend | oldApp.js:1007 | the virtual-entry filter distributes over concatenation |
| WaitQueue.IdsOfAppend | oldApp.js:153 | the key sets distribute over concatenation |
| WaitQueue.RemoveAt | oldApp.js:1074-1075 | with distinct keys, deleting the key at a position cuts out exactly that entry |
| WaitQueue.BotsUnique | oldApp.js:1068 | the virtual entries of a map with distinct keys have distinct keys |
| WaitQueue.UpsertElements | oldApp.js:1057 | after `set` every entry is the new one or an old one |
| WaitQueue.UpsertCounts | oldApp.js:1057 | `set` of a virtual entry adds at most one entry and at most one virtual entry |
| WaitQueue.RemoveElements | oldApp.js:1075 | after `delete` every entry was there before |
| OldApp.HumanKeysNotVirtual | oldApp.js:44 | when only virtual entries use `virtual_` keys, no human waits under such a key |
| OldApp.MakeVirtualEntry | oldApp.js:42-58 | the entry is virtual, keyed `virtual_` plus the profile id or, for a profile without one, the drawn random suffix, with zero cooldown and non-empty defaulted name, gender and persona |
| OldApp.VirtualKeysDistinct | oldApp.js:44 | two entries share a key exactly when their ids, or for id-less profiles their drawn suffixes, agree |
| OldApp.FirstAvailableFrom | oldApp.js:95-97 | the first virtual entry whose cooldown has passed, in queue order, or none |
| OldApp.PickVirtual | oldApp.js:93-105 | a picked entry is virtual and carries a cooldown of now plus 3 minutes |
| OldAppProps.InitialValid | oldApp.js:14-22 | the empty server state satisfies the invariant |
| OldAppProps.ArmChatsOk | oldApp.js:739-743 | arming a timer other than a follow-up keeps the session part of the invariant |
| OldAppProps.ArmCountdownsOk | oldApp.js:201-273 | arming a timer other than a countdown keeps `timers` in step with the countdowns |
| OldAppProps.ArmValid | oldApp.js:777-835 | arming a delivery, greeting, reply, goodbye or end timer keeps the invariant |
| OldAppProps.CancelValid | oldApp.js:812-815 | clearing a timer other than a countdown keeps the invariant |
| OldAppProps.ValidIgnoresCounts | oldApp.js:602-609 | the invariant does not depend on `activeUsers` or on emitted events |
| OldAppProps.DropTimerOk | oldApp.js:178-181 | dropping a removed key's countdown removes exactly its pending timer |
| OldAppProps.WithdrawValid | oldApp.js:294-303 | removing a key from the queue together with its countdown keeps the invariant |
| OldAppProps.ReadyToPairAlreadyQueued | oldApp.js:151-156 | a user already waiting is only told so and marked active |
| OldAppProps.WithdrawEffect | oldApp.js:294-303 | withdrawing a user drops their countdown and active mark, broadcasts the counts and changes nothing else |
| OldAppProps.ReadyToPairMatches | oldApp.js:158-188 | a newcomer is paired with the first compatible waiting human: both are told, and the partner leaves the queue with its countdown |
| OldAppProps.PairWithEffect | oldApp.js:168-185 | pairing with the entry at a given place cuts exactly that entry out, drops its countdown, tells both users and takes both out of the active set |
| OldAppProps.ReadyToPairEnqueues | oldApp.js:191-274 | with no compatible human waiting, the newcomer is appended with a fresh 30-second countdown and told to wait |
| OldAppProps.ArmCountdownOk | oldApp.js:201-273 | a fresh countdown for a newly queued key keeps `timers` in step |
| OldAppProps.EnqueueValid | oldApp.js:191-274 | queueing a new human with a countdown keeps the invariant |
| OldAppProps.ReadyToPairValid | oldApp.js:141-275 | `readyToPair` keeps the invariant |
| OldAppProps.ValidOnCore | oldApp.js:14-21 | the invariant reads only the queue, the timer tables and the sessions |
| OldAppProps.EvictFiresForWaiting | oldApp.js:201-202 | a pending countdown always belongs to a waiting human, so the callback's `has(id)` test holds |
| OldAppProps.PickVirtualEffect | oldApp.js:93-105 | the pick removes exactly the first available virtual entry, or changes nothing when there is none |
| OldAppProps.ChosenEffect | oldApp.js:208-220 | the second pick taken after a repeat bot gives a different bot, also taken from the queue |
| OldAppProps.TimeoutRemovesUser | oldApp.js:201-270 | when the countdown expires the user leaves the queue |
| OldAppProps.TimeoutWithoutBots | oldApp.js:260-268 | with no virtual entry available the user is removed and told the wait timed out |
| OldAppProps.TimeoutPairsFirstBot | oldApp.js:210-256 | an available bot that differs from the last one is paired with the user, and the chat is mapped to the user's socket |
| OldAppProps.TimeoutNeverRepeatsBot | oldApp.js:211-224 | a bot given on timeout is never the user's previous bot, came from the queue and starts a session |
| OldAppProps.ExpireValid | oldApp.js:226-229 | dropping the expired user and countdown keeps the invariant |
| OldAppProps.StartValid | oldApp.js:716-744 | `startBotConversation` under a new chat id keeps the invariant |
| OldAppProps.FireEvictValid | oldApp.js:201-271 | the countdown callback keeps the invariant |
| OldAppProps.ChangePreferenceValid | oldApp.js:280-311 | `changePreference` keeps the invariant |
| OldAppProps.ChangePreferenceEffect | oldApp.js:294-308 | a waiting user leaves the queue, `timers` and the active set; every user is answered `preferenceUpdated` |
| OldAppProps.ChangePreferenceIdempotent | oldApp.js:294-308 | a second `changePreference` only answers again |
| OldAppProps.DisconnectValid | oldApp.js:579-599 | `disconnect` keeps the invariant |
| OldAppProps.DisconnectRemovesFirst | oldApp.js:579-599 | `disconnect` removes the first waiting human on the socket with its countdown, or changes nothing |
| OldAppProps.CutLeavesNoneOnSocket | oldApp.js:582-593 | cutting out the only entry on a socket leaves none on it |
| OldAppProps.DisconnectIdempotent | oldApp.js:579-599 | when one entry per socket waits, a repeated `disconnect` changes nothing more |
| OldAppProps.SendBotMessageEffect | oldApp.js:748-776 | without a session nothing happens; with one, exactly one message is counted, typing is shown and one delivery is armed |
| OldAppProps.SessionUpdateChatsOk | oldApp.js:754 | updating a session with the same follow-up keeps the invariant |
| OldAppProps.SendBotMessageValid | oldApp.js:748-776 | `sendBotMessage` keeps the invariant |
| OldAppProps.AtMostOneFollowUp | oldApp.js:985-995 | at most one follow-up timer is pending per chat |
| OldAppProps.FireDeliverEffect | oldApp.js:777-835 | a delivery clears the chat's follow-up and arms the goodbye exactly when 20 messages were counted |
| OldAppProps.FireGoodbyeValid | oldApp.js:828-833 | the goodbye timer keeps the invariant |
| OldAppProps.EndBotChatCloses | oldApp.js:838-867 | after `endBotChat` the end is announced, and later bot messages and follow-ups for the chat do nothing |
| OldAppProps.FireEndChatValid | oldApp.js:832 | the end-chat timer keeps the invariant |
| OldAppProps.NoFollowUpAfterCancel | oldApp.js:812-815 | clearing the recorded follow-up leaves none pending for the chat |
| OldAppProps.FollowUpArmOk | oldApp.js:991 | recording a fresh follow-up keeps the session part of the invariant |
| OldAppProps.ScheduleFollowUpSingle | oldApp.js:985-995 | after `scheduleFollowUp` exactly one follow-up is pending for the chat, the one its session records |
| OldAppProps.ScheduleFollowUpValid | oldApp.js:985-995 | `scheduleFollowUp` keeps the invariant |
| OldAppProps.ScheduleFollowUpOk | oldApp.js:985-995 | `scheduleFollowUp` on a chat with a session keeps the invariant |
| OldAppProps.CancelFollowUpOk | oldApp.js:985-989 | clearing a chat's follow-up keeps the invariant's parts and leaves no follow-up of that chat pending |
| OldAppProps.FireFollowUpValid | oldApp.js:991-995 | the follow-up timer keeps the invariant |
| OldAppProps.FireGreetValid | oldApp.js:739-743 | the greeting timer keeps the invariant |
| OldAppProps.FireReplyValid | oldApp.js:367-370 | the reply timer keeps the invariant |
| OldAppProps.UserMessageEffect | oldApp.js:329-376 | `sendMessage` always relays the payload; a non-bot message in a session arms exactly one reply, the one `generateBotReply` gives |
| OldAppProps.UserMessageGenderDeflected | oldApp.js:930-931 | a gender question in a bot chat is answered with the deflection, whatever the draws |
| OldAppProps.UserMessageValid | oldApp.js:329-376 | `sendMessage` keeps the invariant |
| OldAppProps.SameHumansValid | oldApp.js:1044-1078 | changing only virtual entries keeps the invariant |
| OldAppProps.AddVirtualUsersIfEmptyValid | oldApp.js:61-90 | filling the queue with virtual users keeps the invariant |
| OldAppProps.FluctuateValid | oldApp.js:1004-1041 | the fluctuation keeps the invariant |
| OldAppFleet.Admit | oldApp.js:1056-1060 | queueing one profile keeps the pool's size |
| OldAppFleet.AddBotsFrom | oldApp.js:1050-1063 | the loop of `addBots` keeps the pool's size |
| OldAppFleet.FillFrom | oldApp.js:69-84 | the loop of `addVirtualUsersIfEmpty` keeps the pool's size |
| OldAppFleet.PicksFewer | oldApp.js:1072-1073 | random picks that suffice for `n` removals suffice for fewer |
| OldAppFleet.AdmitKeeps | oldApp.js:1056-1060 | queueing one profile keeps the queue well formed and adds at most one bot; other profiles are untouched |
| OldAppFleet.AddBotsFromBounds | oldApp.js:1050-1063 | the loop adds at most the bots still owed, keeps every human and skips profiles under cooldown |
| OldAppFleet.AddBotsBounds | oldApp.js:1044-1064 | `addBots(n)` adds at most `n` bots and keeps every human; `n <= 0` or an empty pool changes nothing |
| OldAppFleet.FillFromBounds | oldApp.js:69-84 | the fill loop grows the queue but never past `minCount`, and skips profiles under cooldown |
| OldAppFleet.AddVirtualUsersIfEmptyBounds | oldApp.js:61-90 | a queue already at `minCount` is left alone; otherwise it is filled up to at most `minCount` and the counts are broadcast |
| OldAppFleet.RemoveBotsFromExact | oldApp.js:1072-1077 | the loop of `removeBots` removes exactly `min(n - i, bots)` bots |
| OldAppFleet.RemoveBotsExact | oldApp.js:1067-1078 | `removeBots(n)` removes exactly `min(n, bots)` virtual entries and keeps every human |
| OldAppFleet.JitterRange | oldApp.js:1016 | the jitter lies in -5..5 |
| OldAppFleet.ShrinkExact | oldApp.js:1033-1034 | removal by `fluctuateVirtualUsers` removes exactly the requested number of bots |
| OldAppFleet.ResizeDown | oldApp.js:1031-1034 | above the target, the bot count comes down to the target |
| OldAppFleet.ResizeUp | oldApp.js:1027-1030 | below the target, the bot count grows but not past the target |
| OldAppFleet.NudgeBounds | oldApp.js:1016-1021 | a jitter moves the bot count by at most five |
| OldAppFleet.ResizeJitter | oldApp.js:1014-1024 | at the target, the count ends within five of it |
| OldAppFleet.FluctuateTowardTarget | oldApp.js:1004-1041 | one run moves the bot count toward the target, keeps every human and broadcasts |
| OldAppFleet.TargetInRange | oldApp.js:1011 | the target lies between `minRange` and `maxRange` |
| OldAppReply.PersonalityOf | oldApp.js:880-901 | every persona, known or defaulted to `friendly`, has tones and emojis |
| OldAppReply.SafetyFiltersFirst | oldApp.js:930-933 | a gender word always gets the gender deflection; a contact or photo word, without a gender word, gets the privacy reply |
| OldAppReply.SmallTalkIffNoKeyword | oldApp.js:930-961 | small talk is used exactly when no keyword list matches |
| OldAppReply.NameQuestionAnswer | oldApp.js:936-937 | a name question is answered with the display name, or `someone` when it is empty |
| OldAppReply.TrimNoOuterSpace | oldApp.js:973 | text with no white space at either end is its own trim |
| OldAppReply.SmallTalkEnds | oldApp.js:966-971 | the chosen tone starts and the chosen emoji ends without white space |
| OldAppReply.LineEnds | oldApp.js:950-959 | every small-talk line begins and ends without white space |
| OldAppReply.PersonalityEnds | oldApp.js:880-897 | every tone and emoji is non-empty without outer white space |
| OldAppReply.SmallTalkShape | oldApp.js:961-973 | below 0.4 the reply is tone, line and emoji; below 0.7 it is line and emoji; otherwise only the line; the trim cuts nothing |
| OldAppServer.FindAvailable | oldApp.js:95-97 | the scan finds the first available virtual entry |
| OldAppServer.PickFrom | oldApp.js:93-105 | `pickVirtualFromWaiting` computes `PickVirtual`: a virtual entry with a 3-minute cooldown |
| OldAppServer.Server.constructor | oldApp.js:14-40 | the server starts in the initial state, which satisfies the invariant |
| OldAppServer.Server.SetTimer | oldApp.js:201 | `setTimeout` stores the callback under a fresh token |
| OldAppServer.Server.BroadcastUserCount | oldApp.js:602-609 | emits the active and waiting counts |
| OldAppServer.Server.Withdraw | oldApp.js:294-303 | removes the user, their countdown and active mark, then broadcasts |
| OldAppServer.Server.ReadyToPair | oldApp.js:141-275 | performs `OldApp.ReadyToPair` on the fields |
| OldAppServer.Server.StartBotConversation | oldApp.js:716-744 | performs `OldApp.StartBotConversation` |
| OldAppServer.Server.Timeout | oldApp.js:202-270 | performs `OldApp.Timeout` |
| OldAppServer.Server.PairWithBot | oldApp.js:222-256 | records the bot, removes the user, announces the pair and starts the conversation |
| OldAppServer.Server.Expire | oldApp.js:260-269 | removes the user and tells them the wait timed out |
| OldAppServer.Server.FireEvict | oldApp.js:201-271 | performs `OldApp.FireEvict` and keeps the invariant |
| OldAppServer.Server.ChangePreference | oldApp.js:280-311 | performs `OldApp.ChangePreference` |
| OldAppServer.Server.Disconnect | oldApp.js:579-599 | performs `OldApp.Disconnect` |
| OldAppServer.Server.SendBotMessage | oldApp.js:748-776 | performs `OldApp.SendBotMessage` |
| OldAppServer.Server.FireDeliver | oldApp.js:777-835 | performs `OldApp.FireDeliver` |
| OldAppServer.Server.FireGoodbye | oldApp.js:828-833 | performs `OldApp.FireGoodbye` |
| OldAppServer.Server.EndBotChat | oldApp.js:838-867 | performs `OldApp.EndBotChat` |
| OldAppServer.Server.FireEndChat | oldApp.js:832 | performs `OldApp.FireEndChat` |
| OldAppServer.Server.ScheduleFollowUp | oldApp.js:985-995 | performs `OldApp.ScheduleFollowUp` |
| OldAppServer.Server.FireFollowUp | oldApp.js:991-995 | performs `OldApp.FireFollowUp` |
| OldAppServer.Server.FireGreet | oldApp.js:739-743 | performs `OldApp.FireGreet` |
| OldAppServer.Server.FireReply | oldApp.js:367-370 | performs `OldApp.FireReply` |
| OldAppServer.Server.UserMessage | oldApp.js:329-376 | performs `OldApp.UserMessage` |
| OldAppServer.Server.AddBots | oldApp.js:1044-1064 | performs `OldAppFleet.AddBots` with its loop |
| OldAppServer.Server.AddVirtualUsersIfEmpty | oldApp.js:61-90 | performs `OldAppFleet.AddVirtualUsersIfEmpty` with its loop |
| OldAppServer.Server.RemoveBots | oldApp.js:1067-1078 | performs `OldAppFleet.RemoveBots` with its loop |
| OldAppServer.Server.FluctuateVirtualUsers | oldApp.js:1004-1041 | performs `OldAppFleet.Fluctuate` |
| App.FirstOnSocketAsWrittenFrom | app.js:216-217 | the scan's `user.socket === socket` test, on entries that store `socketId` and no `socket` |
| App.InitialValid | app.js:18-19 | the empty queue and timer tables satisfy the invariant |
| App.DropValid | app.js:140-142 | deleting a queued user together with their countdown keeps the invariant |
| App.ReadyToPairValid | app.js:114-162 | `readyToPair` keeps the invariant |
| App.FireEvictValid | app.js:152-159 | the countdown keeps the invariant |
| App.ChangePreferenceValid | app.js:164-180 | the corrected `changePreference` keeps the invariant |
| App.DisconnectValid | app.js:214-223 | the corrected `disconnect` keeps the invariant |
| App.FireEvictHitsOwnCountdown | app.js:152-159 | under the invariant a countdown fires only for a queued user whose current countdown it is; it removes that user and sends `timeout` |
| App.ReadyToPairAlreadyQueued | app.js:119-122 | a user already queued is only told so |
| App.ReadyToPairMatches | app.js:125-145 | a newcomer is matched with the first compatible entry in insertion order, which is cut out with its countdown; both are told |
| App.ReadyToPairEnqueues | app.js:148-161 | with no compatible entry the newcomer is appended with exactly one fresh countdown and told to wait |
| App.FireEvictGone | app.js:153 | a countdown of a user no longer queued does nothing |
| App.ChangePreferenceIdempotent | app.js:171-177 | a second `changePreference` only answers again |
| App.DisconnectRemovesFirst | app.js:214-223 | the corrected `disconnect` removes the first entry on the socket, with its countdown |
| App.DisconnectAsWrittenNeverRemoves | app.js:214-223 | `disconnect` as written never removes anyone |
| App.DisconnectCounterexample | app.js:214-223 | a queued user who disconnects stays queued as written, and leaves when corrected |
| App.StaleCountdownEvictsRejoin | app.js:164-180 | as written, a rejoin after `changePreference` is evicted by the first, stale countdown while the new one is still pending |
| App.RejoinKeepsFreshCountdown | app.js:164-180 | with the corrected handler only the fresh countdown is pending after the rejoin |
| AppServer.Server.constructor | app.js:18-19 | the server starts with an empty queue and no timers |
| AppServer.Server.DropTimer | app.js:140-141 | `clearTimeout` and `timers.delete` of one key |
| AppServer.Server.ReadyToPair | app.js:114-162 | performs `App.ReadyToPair` and keeps the invariant |
| AppServer.Server.FireEvict | app.js:152-159 | performs `App.FireEvict` and keeps the invariant |
| AppServer.Server.ChangePreference | app.js:164-180 | performs the corrected `App.ChangePreference` and keeps the invariant |
| AppServer.Server.Disconnect | app.js:214-223 | performs the corrected `App.Disconnect` and keeps the invariant |
| IndexSlot.InitialValid | index.js:11-13 | the empty slot with interest `"auto"` satisfies the invariant |
| IndexSlot.ReadyToPairValid | index.js:20-61 | `readyToPair` keeps the invariant |
| IndexSlot.ListenValid | index.js:86-91 | the reset when the server starts listening gives a valid state |
| IndexSlot.EmptySlotStores | index.js:53-60 | an empty slot takes the newcomer, remembers its interest and tells it to wait |
| IndexSlot.OccupiedSlot | index.js:28-49 | a newcomer with another id pairs exactly when the stored interest is `"auto"` or equals the newcomer's; otherwise it is told to wait and nothing is stored |
| IndexSlot.SameIdWaits | index.js:50-52 | the same id again leaves the slot as it is and tells the waiting socket to wait |
| IndexSlot.SlotEmptiedOnlyByPairing | index.js:22-52 | the slot is emptied only by pairing the waiting user |
| IndexSlot.SameInterestPairs | index.js:24-38 | gender is never compared: two users with the same interest pair up |
| IndexSlotServer.Server.constructor | index.js:11-13 | the server starts in the initial state |
| IndexSlotServer.Server.Listen | index.js:86-91 | performs the listen-time reset |
| IndexSlotServer.Server.ReadyToPair | index.js:20-61 | performs `IndexSlot.ReadyToPair` and keeps the invariant |
| SrcIndexSlot.FullSlotPairs | src/index.js:17-25 | a full slot pairs: both sockets get the other's payload, the slot empties and `dataValues` gains the newcomer's payload |
| SrcIndexSlot.EmptySlotStores | src/index.js:26-32 | an empty slot takes the newcomer and leaves `dataValues` alone |
| SrcIndexSlot.RunCounts | src/index.js:16-33 | after `n` requests the slot is full exactly when the users so far are odd in number, and `dataValues` grew by one per completed pair, only at its end |
| SrcIndexSlot.TwoRequestsPair | src/index.js:16-33 | from an empty slot, two requests empty it again with one more payload recorded |
| SrcIndexSlotServer.Server.constructor | src/index.js:10-13 | the server starts with an empty slot and no payloads |
| SrcIndexSlotServer.Server.ReadyToPair | src/index.js:16-33 | performs `SrcIndexSlot.ReadyToPair` |
| ConversationPatterns.FirstMatchFrom | conversationPatterns.js:205-209 | the index of the first pattern at or after `k` that matches, or none when no later pattern matches |
| ConversationPatterns.ShortGreetingsAlreadyMatched | conversationPatterns.js:211-213 | every text the short-text fallback accepts is already matched by a table pattern, so the fallback never decides |
| ConversationPatterns.FirstMatchReaches | conversationPatterns.js:205-209 | when pattern `j` matches, the scan stops at `j` or earlier |
| ConversationPatterns.DetectIntentFirstMatch | conversationPatterns.js:199-215 | the intent is that of the first pattern matching the trimmed, lower-cased text, and `Unknown` exactly when none matches |
| ConversationPatterns.NoUnknownInTable | conversationPatterns.js:34-58 | no pattern yields `Unknown` |
| ConversationPatterns.NothingMatchesEmpty | conversationPatterns.js:34-58 | no pattern matches the empty text |
| ConversationPatterns.DetectIntentIsFirst | conversationPatterns.js:199-215 | the short-text fallback never changes the answer: the result is the first matching entry's intent, or `Unknown` |
| ConversationPatterns.DetectIntentNonString | conversationPatterns.js:200 | a non-string and the empty string are `Unknown` |
| ConversationPatterns.EarlierPatternWins | conversationPatterns.js:205-209 | when pattern `j` matches, the result is the intent of pattern `j` or of an earlier one |
| ConversationPatterns.TimeGreetingBeatsGeneral | conversationPatterns.js:35-36 | a time greeting is classified as a time greeting |
| ConversationPatterns.RelationBeatsSocials | conversationPatterns.js:50-51 | a text matching both the relationship and the socials patterns is not a socials question |
| ConversationPatterns.NotSocialsBefore | conversationPatterns.js:34-50 | no pattern before the socials one yields the socials intent |
| ConversationPatterns.Replies | conversationPatterns.js:61-196 | every persona lists at least one reply for every intent |
| ConversationPatterns.FriendlyReplies | conversationPatterns.js:62-88 | the `friendly` persona has a reply for every intent |
| ConversationPatterns.WittyReplies | conversationPatterns.js:89-115 | the `witty` persona has a reply for every intent |
| ConversationPatterns.ChillReplies | conversationPatterns.js:116-142 | the `chill` persona has a reply for every intent |
| ConversationPatterns.CuriousReplies | conversationPatterns.js:143-169 | the `curious` persona has a reply for every intent |
| ConversationPatterns.ReservedReplies | conversationPatterns.js:170-195 | the `reserved` persona has a reply for every intent |
| ConversationPatterns.Options | conversationPatterns.js:219-220 | the option list is never empty, so the `'hmm'` fallbacks never apply |
| ConversationPatterns.UnknownPersonaIsFriendly | conversationPatterns.js:219 | an unknown persona key answers like `friendly` |
| ConversationPatterns.RelationReply | conversationPatterns.js:225 | `ya, <partner>` with a partner, `nah, just single` without one |
| ConversationPatterns.FillWithoutPlaceholders | conversationPatterns.js:226-231 | a template without placeholders is left as it is |
| ConversationPatterns.FillRelation | conversationPatterns.js:231 | `{relationReply}` becomes the relation reply |
| ConversationPatterns.NotContained | conversationPatterns.js:226-231 | a placeholder cannot occur in a text whose only brace is its first character |
| ConversationPatterns.FillName | conversationPatterns.js:227 | `{name}` becomes `profile.name` when the name holds no placeholder |
| ConversationPatterns.Draft | conversationPatterns.js:222-235 | the filled and trimmed reply is cut to at most 120 characters |
| ConversationPatterns.ResponseIsRephrasedDraft | conversationPatterns.js:218-238 | the reply is the rephrased draft of at most 120 characters, and the draft itself when no rule fires |
| Rephrase.ApplyRule | rephrase.js:10-12 | a rule changes the text only when its word occurs and its gate is below 0.4 |
| Rephrase.RephraseLoop | rephrase.js:1-15 | the loop over the four rules computes `RephraseText` |
| Rephrase.NoFiringNoChange | rephrase.js:9-14 | when no gate opens, the text comes back unchanged |
| Rephrase.NoPatternNoChange | rephrase.js:2-14 | text with none of the four words comes back unchanged, whatever the draws |
| Rephrase.RuleWritesCandidateAtFirstMatch | rephrase.js:11 | a firing rule keeps the text before the first whole-word match, writes the candidate and goes on replacing after it |
| Rephrase.FirstMatchReplaced | rephrase.js:11 | the global replace keeps the text up to the first match and then writes the candidate |
| PersonaBot.Greetings | chroma-db-disabled.js:119-126 | five opening lines; in botModule_chroma.js:185-191 the fourth uses a curly apostrophe |
| PersonaBot.PickProfile | chroma-db-disabled.js:81-86 | a provided profile is used as is; otherwise one is drawn from the pool; an empty pool gives the empty profile |
| PersonaBot.AssignPartner | chroma-db-disabled.js:88-97 | a profile without a boolean `hasPartner` gets one from a draw below 0.4, with a partner name from the other sex's list; a profile with one is unchanged |
| PersonaBot.AddMemory | chroma-db-disabled.js:52-64 | adding a memory changes only the memory store |
| PersonaBot.RememberWindow | chroma-db-disabled.js:57-63 | up to 16 items the list only grows; past 16 it keeps the newest 8, ending with the new memory |
| PersonaBot.AddMemoryTouchesOneKey | chroma-db-disabled.js:54-58 | adding a memory touches only the list under its profile key |
| PersonaBot.QueryMemoryNewest | chroma-db-disabled.js:66-74 | `[]` for an unknown profile, otherwise the texts of the newest `n` memories, oldest first |
| PersonaBot.ShareAskCaught | chroma-db-disabled.js:235-250 | any text the share-your rule matches has already been caught by the social or the phone rule |
| PersonaBot.ShareYourUnreachable | chroma-db-disabled.js:248-250 | so the `nope, not sharing that here` rule never fires |
| PersonaBot.PrivacyReplyCases | chroma-db-disabled.js:231-253 | social and phone questions get the fixed deflection, relationship questions the `ASK_RELATION` template, anything else no rule reply |
| PersonaBot.Reacts | chroma-db-disabled.js:259-266 | every persona has at least one reaction, each at most 11 characters |
| PersonaBot.Nudges | chroma-db-disabled.js:284-291 | every persona has at least one nudge |
| PersonaBot.Piece | chroma-db-disabled.js:258 | the quoted piece is at most 60 characters |
| PersonaBot.EmojiContextQuoted | chroma-db-disabled.js:257 | the remembered line `user:😄` has 6 characters but `length` 7, so it passes the `> 6` test |
| PersonaBot.TypingDelay | chroma-db-disabled.js:153 | the typing delay lies between 600 and 1400 ms and is 1400 exactly when the text's `length` is at least 100 |
| PersonaBot.CollapseKeepsOut | chroma-db-disabled.js:258 | collapsing white space adds no character that is not white space |
| PersonaBot.SynthesizeShape | chroma-db-disabled.js:255-273 | with a context `length` above 6 UTF-16 code units the reply is a reaction, a space and the start of the first `|`-segment, at most 120 characters; otherwise the `UNKNOWN` template |
| PersonaBot.Context | chroma-db-disabled.js:219 | the joined context is at most 220 characters |
| PersonaBot.InMemoryDispatch | chroma-db-disabled.js:207-222 | a recognised intent is answered with its template, an unrecognised one from context |
| PersonaBot.ChromaDispatch | botModule_chroma.js:268-283 | a recognised intent always goes to context synthesis; an unrecognised one takes the greeting on a draw below 0.5 |
| PersonaBot.PrivacyFirst | chroma-db-disabled.js:199-204 | a privacy rule answers before anything else, in both variants |
| PersonaBot.SendBotMessage | chroma-db-disabled.js:145-176 | sending changes only the timers, the token counter and the output |
| PersonaBot.PushLocalMemory | chroma-db-disabled.js:135-142 | the session keeps its newest 16 items, ending with the text; no other session changes |
| PersonaBot.CancelFollowUp | chroma-db-disabled.js:188-191 | cancelling removes at most timers and keeps every session |
| PersonaBot.Delivered | chroma-db-disabled.js:156-165 | a delivery spends its timer and keeps the chat tables |
| PersonaBot.RecordUserText | chroma-db-disabled.js:188-195 | recording the user's line keeps the chat tables and the counters |
| PersonaBot.InitialValid | chroma-db-disabled.js:77-79 | the empty state satisfies the invariant, before and after `init` |
| PersonaBot.OneFollowUpPerSession | chroma-db-disabled.js:280-295 | a session has at most one follow-up pending |
| PersonaBot.AddMemoryValid | chroma-db-disabled.js:52-64 | adding a memory keeps the invariant |
| PersonaBot.SendBotMessageValid | chroma-db-disabled.js:145-176 | `sendBotMessage` keeps the invariant |
| PersonaBot.PushLocalMemoryValid | chroma-db-disabled.js:135-142 | `pushLocalMemory` keeps the invariant |
| PersonaBot.ScheduleFollowUpValid | chroma-db-disabled.js:280-295 | `scheduleFollowUp` keeps the invariant |
| PersonaBot.CancelFollowUpValid | chroma-db-disabled.js:188-191 | cancelling the follow-up keeps the invariant |
| PersonaBot.EndSessionValid | chroma-db-disabled.js:298-303 | `endSession` keeps the invariant |
| PersonaBot.GreetValid | chroma-db-disabled.js:126-131 | the greeting step keeps the invariant |
| PersonaBot.RegisterValid | chroma-db-disabled.js:116-117 | registering a new session keeps the invariant |
| PersonaBot.CreateBotSessionValid | chroma-db-disabled.js:100-133 | `createBotSession` keeps the invariant |
| PersonaBot.DeliveredValid | chroma-db-disabled.js:156-165 | the first half of a delivery keeps the invariant |
| PersonaBot.FireDeliverValid | chroma-db-disabled.js:155-175 | a delivery keeps the invariant |
| PersonaBot.GoodbyeValid | chroma-db-disabled.js:168-174 | the goodbye and the `endSession` that follows keep the invariant |
| PersonaBot.FireFollowUpValid | chroma-db-disabled.js:282-294 | a follow-up firing keeps the invariant |
| PersonaBot.RecordUserTextValid | chroma-db-disabled.js:188-195 | recording the user's line keeps the invariant |
| PersonaBot.HandleUserMessageValid | chroma-db-disabled.js:179-228 | `handleUserMessage` keeps the invariant |
| PersonaBot.SendBotMessageNoOp | chroma-db-disabled.js:146-148 | without `io` or without a socket, `sendBotMessage` changes nothing |
| PersonaBot.SendBotMessageArms | chroma-db-disabled.js:147-155 | otherwise one typing indicator goes out and one delivery of the trimmed text, cut to 240 characters, is armed on the chat's socket or else the session's, waiting the typing delay of that text |
| PersonaBot.FireDeliverCounts | chroma-db-disabled.js:155-175 | a delivery sends typing-off and the message, counts it once and remembers `bot:<text>`; a goodbye and the session's end follow exactly when the count reaches 60 |
| PersonaBot.EndSessionIdempotent | chroma-db-disabled.js:298-307 | `endSession` makes `isBotChat` false, drops the socket and is idempotent |
| PersonaBot.EndSessionClearsFollowUp | chroma-db-disabled.js:298-303 | after `endSession` no follow-up of the ended session is pending; its deliveries still are |
| PersonaBot.ScheduleFollowUpSingle | chroma-db-disabled.js:280-282 | after `scheduleFollowUp` the session's only pending follow-up is the new one |
| PersonaBot.HandleUserMessageIgnored | chroma-db-disabled.js:180-185 | an unknown chat, a blank message or a missing socket changes nothing |
| PersonaBot.RecordUserTextSession | chroma-db-disabled.js:188-195 | the follow-up is cleared and `user:<text>` is remembered; the rest of the session is kept |
| PersonaBot.ScheduleFollowUpEffect | chroma-db-disabled.js:280-295 | the new follow-up is armed at the next token and recorded in the session |
| PersonaBot.SendBotMessageTokens | chroma-db-disabled.js:146-155 | on a chat with a socket, one token is issued exactly when `io` is set |
| PersonaBot.HandleUserMessageSteps | chroma-db-disabled.js:179-228 | a message that is not ignored cancels the follow-up, records the line, sends the reply and schedules a follow-up |
| PersonaBot.AnswerEffect | chroma-db-disabled.js:199-227 | what sending a reply and scheduling the follow-up do to the state, whatever the reply |
| PersonaBot.HandleUserMessageRecords | chroma-db-disabled.js:179-228 | a message that is not ignored is remembered and answered |
| PersonaBot.HandleUserMessageTimers | chroma-db-disabled.js:199-227 | with `io` the reply is armed on the chat's socket before the follow-up, which is then the session's only one pending |
| PersonaBot.AnswerTimers | chroma-db-disabled.js:199-227 | whatever the reply text, with `io` its delivery is armed first and the new follow-up is then the session's only one pending |
| PersonaBot.GreetingsTrimmed | chroma-db-disabled.js:119-125 | each greeting is already trimmed and at most 240 characters |
| PersonaBot.GreetEffect | chroma-db-disabled.js:126-131 | the greeting is armed unchanged and remembered as `intro:<greeting>` |
| PersonaBot.CreateBotSessionRegisters | chroma-db-disabled.js:100-133 | the chat gets a new session with count 0 and the default name and persona; the greeting is armed and is its only memory |
| PersonaBot.AddMemoryBounded | chroma-db-disabled.js:61-63 | the in-memory store keeps at most 16 items per profile |
| PersonaBotServer.Bot.constructor | chroma-db-disabled.js:77-79 | the bot starts in the initial state, which is valid |
| PersonaBotServer.Bot.Init | chroma-db-disabled.js:310-313 | `init` sets `io` |
| PersonaBotServer.Bot.IsBotChat | chroma-db-disabled.js:305-307 | true exactly when the chat has a session |
| PersonaBotServer.Bot.AddMemory | chroma-db-disabled.js:52-64 | performs `PersonaBot.AddMemory` |
| PersonaBotServer.Bot.SendBotMessage | chroma-db-disabled.js:145-176 | performs `PersonaBot.SendBotMessage` |
| PersonaBotServer.Bot.PushLocalMemory | chroma-db-disabled.js:135-142 | performs `PersonaBot.PushLocalMemory` |
| PersonaBotServer.Bot.ScheduleFollowUp | chroma-db-disabled.js:280-295 | performs `PersonaBot.ScheduleFollowUp` |
| PersonaBotServer.Bot.CancelFollowUp | chroma-db-disabled.js:188-191 | performs `PersonaBot.CancelFollowUp` |
| PersonaBotServer.Bot.EndSession | chroma-db-disabled.js:298-303 | performs `PersonaBot.EndSession` |
| PersonaBotServer.Bot.Greet | chroma-db-disabled.js:126-131 | performs `PersonaBot.Greet` |
| PersonaBotServer.Bot.CreateBotSession | chroma-db-disabled.js:100-133 | performs `PersonaBot.CreateBotSession` and keeps the invariant |
| PersonaBotServer.Bot.FireDeliver | chroma-db-disabled.js:155-175 | performs `PersonaBot.FireDeliver` and keeps the invariant |
| PersonaBotServer.Bot.FireFollowUp | chroma-db-disabled.js:282-294 | performs `PersonaBot.FireFollowUp` and keeps the invariant |
| PersonaBotServer.Bot.HandleUserMessage | chroma-db-disabled.js:179-228 | performs `PersonaBot.HandleUserMessage` and keeps the invariant |
| ChromaFallback.Ids | botModule_chroma.js:116 | the ids of the items, in insertion order |
| ChromaFallback.Query | botModule_chroma.js:127-137 | the documents of the first `n` items, in insertion order |
| ChromaFallback.SetGet | botModule_chroma.js:119-124 | `set` stores the item under its id and keeps the others; a present id keeps its place, a new one goes at the end |
| ChromaFallback.GetAbsent | botModule_chroma.js:116 | an id no item has is absent |
| ChromaFallback.GetSomeIn | botModule_chroma.js:116 | an absent id is no item's id |
| ChromaFallback.AddOverwrites | botModule_chroma.js:118-126 | re-adding an id overwrites its document in place |
| ChromaFallback.AddDistinct | botModule_chroma.js:118-126 | `add` keeps the stored ids distinct |
| ChromaFallback.AddGetLast | botModule_chroma.js:118-126 | after `add` each id holds the document at its last index among `ids` (none beyond the end of `documents`) |
| ChromaFallback.AddGetUntouched | botModule_chroma.js:118-126 | after `add` an id not among `ids` keeps its item |
| ChromaFallbackStore.FallbackCollection.constructor | botModule_chroma.js:115-116 | a new collection is empty |
| ChromaFallbackStore.FallbackCollection.Add | botModule_chroma.js:118-126 | performs `ChromaFallback.Add` and keeps the ids distinct |
| ChromaFallbackStore.FallbackCollection.Query | botModule_chroma.js:127-137 | returns `ChromaFallback.Query` |
| BotModule.NextHostIndex | botModule.js:12-15 | the index moves on before the read, so it always names a host and never the previous one |
| BotModule.HostsAlternate | botModule.js:10-15 | two calls in a row come back to the same host, so the two workers alternate |
| BotModule.TypingDelay | botModule.js:93 | 150 ms exactly for a message whose `length` is below 15 UTF-16 code units, else 400 ms |
| BotModule.EmojiNudgeWaitsLonger | botModule.js:93 | the nudge `tell me more 😄` has 14 characters but `length` 15, so it waits 400 ms |
| BotModule.PushMemoryKeepsNewest | botModule.js:114-119 | the item is added and only the newest 8 are kept, in order |
| BotModule.SendBotMessage | botModule.js:86-112 | sending changes only the timers, the token counter and the output |
| BotModule.ScheduleFollowUp | botModule.js:121-127 | scheduling a follow-up changes only timers and the session's timer field |
| BotModule.EndSession | botModule.js:129-133 | the corrected `endSession` changes only the chat tables and removes at most timers |
| BotModule.DeliveredFrame | botModule.js:95-102 | a delivery spends its timer and changes only that session |
| BotModule.CleanReply | botModule.js:183-189 | the reply is never empty; it is the stop-free start of the trimmed text, at most 50 characters, or `ya 😅` |
| BotModule.CleanReplyShape | botModule.js:187-189 | an empty text or one opening with a stop gives `ya 😅`; any other gives a stop-free prefix of the trimmed text of at most 50 characters |
| BotModule.FallbackReply | botModule.js:192-199 | the fallback is one of the three rule replies or a stock reply |
| BotModule.FallbackReplyCases | botModule.js:193-198 | each rule answers exactly when it matches and no earlier rule does |
| BotModule.Prompt | botModule.js:164-168 | the prompt has at most 3 turns and ends with the user's text |
| BotModule.PromptRepeatsUserText | botModule.js:67-74 | because `pushMemory` runs first, the prompt carries the user's text twice |
| BotModule.ReplyText | botModule.js:73-79 | the sent text is never empty |
| BotModule.RememberedFrame | botModule.js:64-68 | remembering the user's text changes only that session and removes at most timers |
| BotModule.InitialValid | botModule.js:17-20 | the empty state satisfies the invariant |
| BotModule.InitValid | botModule.js:22-25 | `init` keeps the invariant |
| BotModule.OneFollowUpPerSession | botModule.js:121-127 | a session has at most one follow-up pending |
| BotModule.SendBotMessageValid | botModule.js:86-112 | `sendBotMessage` keeps the invariant |
| BotModule.ScheduleFollowUpValid | botModule.js:121-127 | `scheduleFollowUp` keeps the invariant |
| BotModule.EndSessionValid | botModule.js:129-133 | the corrected `endSession` keeps the invariant |
| BotModule.EndSessionAsWrittenValid | botModule.js:129-133 | `endSession` as written keeps the invariant: a follow-up it leaves armed is still recorded by its session |
| BotModule.RememberedValid | botModule.js:64-68 | remembering the user's text keeps the invariant |
| BotModule.RememberedTokens | botModule.js:64-68 | remembering issues no token |
| BotModule.RememberedRecorded | botModule.js:68 | remembering keeps every pending follow-up recorded in its session |
| BotModule.RememberedSession | botModule.js:67 | the user's text becomes the session's newest memory item |
| BotModule.DeliveredValid | botModule.js:95-102 | the first half of a delivery keeps the invariant |
| BotModule.DeliveredTokens | botModule.js:95-102 | a delivery issues no token |
| BotModule.DeliveredRecorded | botModule.js:95-102 | a delivery keeps every pending follow-up recorded |
| BotModule.FireDeliverValid | botModule.js:95-111 | a delivery, ending the chat as `endSession` is written, keeps the invariant |
| BotModule.FireDeliverCorrectedValid | botModule.js:95-111 | a delivery ending the chat with the corrected `endSession` keeps the invariant |
| BotModule.FireFollowUpValid | botModule.js:123-126 | a follow-up firing keeps the invariant |
| BotModule.CreateBotSessionValid | botModule.js:42-60 | `createBotSession` keeps the invariant |
| BotModule.HandleUserMessageValid | botModule.js:62-84 | `handleUserMessage` keeps the invariant |
| BotModule.SendBotMessageArms | botModule.js:87-95 | with `io` and a socket, a typing indicator goes out and the message waits for its typing delay |
| BotModule.SendBotMessageNoOp | botModule.js:87-89 | without `io` or any socket nothing happens |
| BotModule.FireDeliverCounts | botModule.js:95-111 | a delivery sends typing-off and the message and counts it once; a goodbye and the session's end follow exactly when the count reaches 20; only the spent timer leaves the pending timers, so the follow-up stays armed |
| BotModule.FireDeliverCorrectedClears | botModule.js:95-111 | with the corrected `endSession`, a delivery at the limit leaves no follow-up of the session pending; below the limit it is the delivery as written |
| BotModule.DeliveredEffect | botModule.js:96-102 | the message is sent, counted and remembered as the assistant's |
| BotModule.FollowUpOutlivesSession | botModule.js:129-133 | as written, `endSession` leaves the follow-up armed, and when it fires the ended chat still gets a nudge |
| BotModule.EndSessionClearsFollowUp | botModule.js:129-133 | the corrected `endSession` leaves no follow-up of the session pending |
| BotModule.EndSessionIdempotent | botModule.js:129-133 | ending a session twice is ending it once |
| BotModule.CreateBotSessionRegisters | botModule.js:42-60 | a new session starts at count 0, the display name falls back to the name then `Riya`, the id to `bot_` plus a suffix, and a greeting is armed |
| BotModule.HandleUserMessageIgnored | botModule.js:63-64 | a chat without a session changes nothing |
| BotModule.AnswerEffect | botModule.js:75-80 | answering keeps the invariant, and the reply waits for its typing delay |
| BotModule.HandleUserMessageSteps | botModule.js:62-84 | a message for a session is remembered, then answered |
| BotModule.HandleUserMessageRecords | botModule.js:62-84 | the user's text is remembered before the reply, a host is taken, and the cleaned reply or the fallback is sent with a follow-up armed |
| BotModule.HandleUserMessageReply | botModule.js:73-80 | with `io` and a socket, the reply goes out after the typing delay of its own text |
| BotModuleServer.Bot.constructor | botModule.js:11-20 | the bot starts in the initial state, which is valid |
| BotModuleServer.Bot.GetNextHost | botModule.js:12-15 | moves `hostIndex` on and returns that host |
| BotModuleServer.Bot.Init | botModule.js:22-40 | `init` sets `io` and takes a host for the warm-up |
| BotModuleServer.Bot.IsBotChat | botModule.js:135-137 | true exactly when the chat has a session |
| BotModuleServer.Bot.SendBotMessage | botModule.js:86-112 | performs `BotModule.SendBotMessage` |
| BotModuleServer.Bot.ScheduleFollowUp | botModule.js:121-127 | performs `BotModule.ScheduleFollowUp` |
| BotModuleServer.Bot.EndSession | botModule.js:129-133 | performs the corrected `BotModule.EndSession` |
| BotModuleServer.Bot.CreateBotSession | botModule.js:42-60 | performs `BotModule.CreateBotSession` and keeps the invariant |
| BotModuleServer.Bot.Delivered | botModule.js:95-102 | performs `BotModule.Delivered` |
| BotModuleServer.Bot.FireDeliver | botModule.js:95-111 | performs `BotModule.FireDeliver`, whose end of the chat leaves the follow-up armed, and keeps the invariant |
| BotModuleServer.Bot.FireFollowUp | botModule.js:123-126 | performs `BotModule.FireFollowUp` and keeps the invariant |
| BotModuleServer.Bot.Remember | botModule.js:64-68 | performs `BotModule.Remembered` |
| BotModuleServer.Bot.HandleUserMessage | botModule.js:62-84 | performs `BotModule.HandleUserMessage` and keeps the invariant |
| HuggingFaceBot.RotateModel | huggingface-bot.js:38-41 | the index stays inside the model list; with the single model it is always 0 |
| HuggingFaceBot.NewSession | huggingface-bot.js:43-56 | a new session counts from 0 with an empty history and the user's socket; it is `Rahul` exactly when the lowercased gender is `male`, else `Myra`; the gender is stored lowercased and never empty |
| HuggingFaceBot.HistoryMessages | huggingface-bot.js:148-151 | each history line becomes one message, a user message exactly when the line starts with `User` and an assistant message otherwise |
| HuggingFaceBot.BuildRequest | huggingface-bot.js:144-157 | the request is the system prompt, the history as messages, then the user's text as a user message, for a model in the list |
| HuggingFaceBot.LineRoundTrip | huggingface-bot.js:148-151 | a `User: ` line maps back to a user message with its text and a `Bot: ` line to an assistant message |
| HuggingFaceBot.HistoryExchange | huggingface-bot.js:106-152 | one recorded exchange adds exactly a user and an assistant message to the next request |
| HuggingFaceBot.PromptSaysGirl | huggingface-bot.js:44-132 | the stored gender is lowercase, so it is never `"M"` and the prompt always calls the persona a girl |
| HuggingFaceBot.MyraCapture | huggingface-bot.js:175 | a capture of the `[MYRA]` pattern never contains `[` |
| HuggingFaceBot.LowerBracket | huggingface-bot.js:175 | lowercasing neither makes nor removes a `[` |
| HuggingFaceBot.MyraCaptureOf | huggingface-bot.js:175-176 | for a text with the tag in any case, no `[` before it and the body running to a `[` or the end, the capture is the body |
| HuggingFaceBot.CleanResponseCases | huggingface-bot.js:174-176 | an answer without the marker is sent trimmed; with it, the sent text holds no `[`; the result is always trimmed |
| HuggingFaceBot.FallbackResponse | huggingface-bot.js:222-243 | the fallback is never empty |
| HuggingFaceBot.FallbackResponseKnown | huggingface-bot.js:222-243 | the fallback is one of the three rule replies, a greeting or a stock reply |
| HuggingFaceBot.FallbackResponseCases | huggingface-bot.js:222-237 | each rule answers exactly when its word occurs and no earlier rule's does |
| HuggingFaceBot.SendBotMessage | huggingface-bot.js:193-210 | sending changes only the output |
| HuggingFaceBot.StartIdleTimer | huggingface-bot.js:245-259 | the chat's idle entry points at a fresh timer holding the nudge; sessions, maps and output are kept |
| HuggingFaceBot.ClearIdle | huggingface-bot.js:247-250 | the chat leaves the idle table and timers are only removed |
| HuggingFaceBot.EndSession | huggingface-bot.js:290-297 | ending changes neither the sessions' contents nor the output nor the counters |
| HuggingFaceBot.Queried | huggingface-bot.js:173-190 | the call changes nothing but possibly the model index, which it rotates |
| HuggingFaceBot.Prompted | huggingface-bot.js:79-91 | before the call the idle entry goes and nothing else in the tables changes |
| HuggingFaceBot.InitialValid | huggingface-bot.js:6-32 | the empty bot satisfies the invariant |
| HuggingFaceBot.SendBotMessageValid | huggingface-bot.js:193-210 | `sendBotMessage` keeps the invariant |
| HuggingFaceBot.StartIdleTimerValid | huggingface-bot.js:245-259 | `startIdleTimer` keeps the invariant |
| HuggingFaceBot.ClearIdleValid | huggingface-bot.js:79-82 | clearing the idle timer keeps the invariant |
| HuggingFaceBot.EndSessionValid | huggingface-bot.js:290-297 | `endSession` keeps the invariant |
| HuggingFaceBot.CreateBotSessionValid | huggingface-bot.js:43-68 | `createBotSession` keeps the invariant |
| HuggingFaceBot.HandleUserMessageValid | huggingface-bot.js:70-125 | `handleUserMessage` keeps the invariant |
| HuggingFaceBot.QueriedValid | huggingface-bot.js:180-183 | rotating the model keeps the invariant |
| HuggingFaceBot.ArmReplyValid | huggingface-bot.js:96-112 | arming the answer's timer keeps the invariant |
| HuggingFaceBot.RecoverValid | huggingface-bot.js:113-124 | the failure path keeps the invariant |
| HuggingFaceBot.FireReplyValid | huggingface-bot.js:97-112 | delivering the answer keeps the invariant |
| HuggingFaceBot.FireIdleValid | huggingface-bot.js:254-288 | the idle nudge keeps the invariant |
| HuggingFaceBot.OneIdlePerChat | huggingface-bot.js:245-259 | at most one idle nudge is pending per chat |
| HuggingFaceBot.StartIdleTimerReplaces | huggingface-bot.js:245-259 | after arming, the new timer is the chat's only idle nudge and the previous one is gone |
| HuggingFaceBot.CreateBotSessionRegisters | huggingface-bot.js:43-68 | the chat gets a fresh session named by gender, counting from 0 with no history; the user is greeted and exactly one idle nudge is armed |
| HuggingFaceBot.HandleUserMessageIgnored | huggingface-bot.js:71-76 | without a session, with a blank text or without a socket nothing changes |
| HuggingFaceBot.HandleUserMessageSucceeds | huggingface-bot.js:78-112 | on success the typing indicator goes on, no idle nudge is left for the chat and the cleaned answer waits in its timer |
| HuggingFaceBot.HandleUserMessageSteps | huggingface-bot.js:78-124 | past the guards, handling is the prompt, the call, then the success or the failure path |
| HuggingFaceBot.RecoverEffect | huggingface-bot.js:113-124 | the failure path turns the indicator off, sends the fallback to the chat's socket and arms one idle timer |
| HuggingFaceBot.HandleUserMessageFails | huggingface-bot.js:113-124 | on failure the indicator goes on and off, the fallback is sent, the idle timer is re-armed, the session is untouched and a 404 rotates the model |
| HuggingFaceBot.FireReplyRecords | huggingface-bot.js:97-112 | the answer's timer adds exactly the exchange to the history and one to the count, and the next request carries it |
| HuggingFaceBot.FireIdleQuiet | huggingface-bot.js:261-288 | the nudge sends at most one message, counts nothing and arms no new timer |
| HuggingFaceBot.EndSessionClears | huggingface-bot.js:290-297 | the chat keeps no idle nudge and other chats' idle entries are kept |
| HuggingFaceBot.EndSessionIdempotent | huggingface-bot.js:290-297 | ending twice is ending once |
| HuggingFaceBot.LateReplyRearmsIdle | huggingface-bot.js:97-112 | an answer still pending when its session ends reaches nobody but is recorded and re-arms an idle timer |
| HuggingFaceBotServer.Bot.constructor | huggingface-bot.js:6-32 | the new bot is the empty state and valid |
| HuggingFaceBotServer.Bot.GetCurrentModel | huggingface-bot.js:34-36 | the current model is the one at the index, and in the list |
| HuggingFaceBotServer.Bot.RotateModel | huggingface-bot.js:38-41 | only the index changes, to the rotated one |
| HuggingFaceBotServer.Bot.IsBotChat | huggingface-bot.js:299-301 | a chat is a bot chat iff it has a session |
| HuggingFaceBotServer.Bot.SendBotMessage | huggingface-bot.js:193-210 | the fields become the `sendBotMessage` step |
| HuggingFaceBotServer.Bot.ClearIdle | huggingface-bot.js:79-82 | the fields become the cleared state |
| HuggingFaceBotServer.Bot.StartIdleTimer | huggingface-bot.js:245-259 | the fields become the `startIdleTimer` step |
| HuggingFaceBotServer.Bot.EndSession | huggingface-bot.js:290-297 | the fields become the `endSession` step |
| HuggingFaceBotServer.Bot.CreateBotSession | huggingface-bot.js:43-68 | returns the new session; the fields become the `createBotSession` step and stay valid |
| HuggingFaceBotServer.Bot.QueryHuggingFace | huggingface-bot.js:127-191 | returns the request the modelled payload describes and the cleaned answer, or none when the call throws; a 404 rotates the model |
| HuggingFaceBotServer.Bot.HandleUserMessage | huggingface-bot.js:70-125 | the fields become the `handleUserMessage` step and stay valid |
| HuggingFaceBotServer.Bot.Answer | huggingface-bot.js:78-124 | past the guards, the fields become the `handleUserMessage` step |
| HuggingFaceBotServer.Bot.ArmReply | huggingface-bot.js:96-112 | the answer waits in a fresh timer |
| HuggingFaceBotServer.Bot.Prompt | huggingface-bot.js:79-91 | the idle timer is cleared and the typing indicator goes on |
| HuggingFaceBotServer.Bot.Recover | huggingface-bot.js:113-124 | the fields become the `catch` branch's state |
| HuggingFaceBotServer.Bot.FireReply | huggingface-bot.js:97-112 | the fields become the delivered-answer state and stay valid |
| HuggingFaceBotServer.Bot.SendIdlePrompt | huggingface-bot.js:254-288 | the fields become the nudge's state and stay valid |
| FreeChatBot.Replies | free-chat-bot.js:12-26 | every rule has at least one reply |
| FreeChatBot.GenerateSmartResponse | free-chat-bot.js:82-134 | the reply is one of the matching rule's replies and never empty |
| FreeChatBot.TopicOrder | free-chat-bot.js:86-133 | each rule answers exactly when its keywords occur and no earlier rule's do; the follow-up question answers when none does |
| FreeChatBot.ReplyTopicOf | free-chat-bot.js:12-26 | every reply of a rule is recognised as that rule's |
| FreeChatBot.RepliesDisjoint | free-chat-bot.js:12-26 | no reply belongs to two rules |
| FreeChatBot.ResponseShowsTopic | free-chat-bot.js:82-134 | the reply belongs to a rule's replies exactly when that rule is the first to match |
| FreeChatBot.NewSession | free-chat-bot.js:29-36 | a new session counts from 0, remembers no text, has the user's socket and a non-empty id and name |
| FreeChatBot.DisplayNameFallback | free-chat-bot.js:32 | the name is `displayName`, else `name`, else `Riya` |
| FreeChatBot.SendBotMessage | free-chat-bot.js:136-151 | sending changes only the output |
| FreeChatBot.EndSession | free-chat-bot.js:153-156 | ending changes neither sessions' contents, timers nor output |
| FreeChatBot.InitialValid | free-chat-bot.js:6-27 | the empty bot satisfies the invariant |
| FreeChatBot.CreateBotSessionValid | free-chat-bot.js:29-48 | `createBotSession` keeps the invariant |
| FreeChatBot.HandleUserMessageValid | free-chat-bot.js:50-80 | `handleUserMessage` keeps the invariant |
| FreeChatBot.FireRespondValid | free-chat-bot.js:68-79 | the reply's timer keeps the invariant |
| FreeChatBot.EndSessionValid | free-chat-bot.js:153-156 | `endSession` keeps the invariant |
| FreeChatBot.SendBotMessageSends | free-chat-bot.js:136-151 | exactly one message goes out when there is a text and a socket, and none otherwise |
| FreeChatBot.CreateBotSessionRegisters | free-chat-bot.js:29-48 | a fresh session counting from 0 is registered in both maps and the user is greeted |
| FreeChatBot.HandleUserMessageIgnored | free-chat-bot.js:51-57 | without a session, with a blank text or without a socket nothing changes |
| FreeChatBot.HandleUserMessageArms | free-chat-bot.js:59-79 | an accepted message shows the typing indicator and arms the reply; the session is untouched |
| FreeChatBot.FireRespondCounts | free-chat-bot.js:68-79 | the count rises by one and the text is remembered; the reply reaches the user iff the chat still has a socket |
| FreeChatBot.EndSessionClears | free-chat-bot.js:153-160 | the chat leaves both maps and stops being a bot chat, other chats keep theirs, and ending again changes nothing |
| FreeChatBotServer.Bot.constructor | free-chat-bot.js:6-27 | the new bot is the empty state and valid |
| FreeChatBotServer.Bot.IsBotChat | free-chat-bot.js:158-160 | a chat is a bot chat iff it has a session |
| FreeChatBotServer.Bot.SendBotMessage | free-chat-bot.js:136-151 | the fields become the `sendBotMessage` step |
| FreeChatBotServer.Bot.CreateBotSession | free-chat-bot.js:29-48 | returns the new session; the fields become the `createBotSession` step and stay valid |
| FreeChatBotServer.Bot.HandleUserMessage | free-chat-bot.js:50-80 | the fields become the `handleUserMessage` step and stay valid |
| FreeChatBotServer.Bot.FireRespond | free-chat-bot.js:68-79 | the fields become the delivered-reply state and stay valid |
| FreeChatBotServer.Bot.EndSession | free-chat-bot.js:153-156 | the fields become the `endSession` step and stay valid |

## Left out

- Transport: Socket.IO rooms, `io.to(...)` routing and acknowledgements are an output-event log; the join, typing, `leftChatRoom` and `closedApp` relays and the WebRTC offer, answer and candidate relays of `oldApp.js` pass data through unchanged and are not modelled.
- Push notifications: the Firebase calls, `notifySingleUserWaiting`, `sendPushNotificationForMessage`, the `/register-token` route and `localDb.js` are foreign I/O.
- Network calls: the HuggingFace `fetch`, the Ollama requests and stream, the ChromaDB client and the Xenova embedder are replaced by their results, given as parameters (a status and content, a reply text, or a thrown error).
- Floating point: `simpleTextVector` and the fallback distances are not modelled; memory entries keep only their text, and ids, metadata and embeddings are dropped.
- Randomness: every `Math.random` draw (picks, shuffles by random comparator, jitter, the 40%, 50% and 20% gates, generated id suffixes, including the `virtual_` key suffix of an id-less profile) is a parameter; its distribution is not modelled, so two drawn suffixes may coincide.
- Real time: only some pending timers hold their delay in milliseconds: the typing delay of a `BotModule` or `PersonaBot` delivery, and the 15000 ms idle and 1000 ms reply timers of `HuggingFaceBot`. The timers of `App`, `OldApp` and `FreeChatBot` and the follow-ups of `PersonaBot` hold none. So the 30-second `readyToPair` countdowns of `app.js` and `oldApp.js`, and the 500 ms before `oldApp.js` calls `endBotChat`, are not held. The random delays are not computed either: the typing, greeting, reply and follow-up delays of `oldApp.js`, the persona follow-ups and the 800 to 2000 ms thinking delay of `free-chat-bot.js`. The order in which timers fire is left to the caller.
- Concurrency: handlers run one at a time to completion; the `botLocks` promise chain of `botModule.js` exists only to serialise async work and is not modelled, nor are interleavings of `await` points.
- Payload parsing: `JSON.parse` of socket payloads, its error reply, and the `parsedMsg.message || parsedMsg.text` choice are taken as one already-parsed `message` input.
- Boundary plumbing: loading `virtual_users.json`, express routes, `server.listen`, environment keys, console logging and the user-count broadcast on connection are not modelled.
- The system prompt of `huggingface-bot.js` is fixed text; the model keeps only its name and gender words.
- The neutral replies of `free-chat-bot.js` are declared but never used by the source, so they are not modelled.
- The `catch` branch of the persona bot's `handleUserMessage` that replies `hmm ok` is not modelled: with the network results as inputs, no step of the modelled handler can throw.
- Prototype keys of plain JavaScript objects used as maps, and a `partnerName` that is `null` or the text `undefined`, are not modelled.
- Text.Lower: lowercases only ASCII letters, where `toLowerCase` also maps other scripts.
- Text.ReplaceFirst: the `$` patterns of the replacement (`$&`, `$$`, `` $` ``, `$'`), which JavaScript's `replace` expands, are inserted literally, so a profile field holding `$` fills a template differently.
- OldAppProps.EnqueueValid, OldAppProps.ReadyToPairValid, OldAppProps.EnqueueTimersOk, OldAppProps.EnqueueQueueOk: proved only for client ids that do not start with `virtual_`. The invariant ties the `virtual_` prefix to bot entries, and `addBots` or `addVirtualUsersIfEmpty` may overwrite a human under such a key with a bot through `waitingUsers.set`, leaving the human's countdown behind, so the invariant is not promised for those ids.
- Text.Take: lengths count code points, where JavaScript's `slice` counts UTF-16 units, so texts with emoji are cut at different places. The length tests of `sendBotMessage`, `synthesizeFromContext` and `detectIntent` count UTF-16 units through `Text.Utf16Length`.
- HuggingFaceBot.SendBotMessage: the `!this.io` guard is left out, as the other handlers of `huggingface-bot.js` use `io` unguarded; `io` is assumed present.
- FreeChatBot.SendBotMessage: the `!this.io` guard is left out for the same reason.

## Findings

| source | as written | input that shows it | evidently intended | confidence | as-written member | corrected member |
|---|---|---|---|---|---|---|
| app.js:164-180 | `changePreference` removes the queue entry but leaves its 30-second countdown armed, and the countdown checks only that the id is queued | `u` calls `readyToPair` from `s1`, then `changePreference`, then `readyToPair` again; the first countdown fires and evicts `u` while the second is still pending | the countdown is cleared with the entry, so a rejoined user gets a full 30 seconds | not executed | App.StaleCountdownEvictsRejoin | App.RejoinKeepsFreshCountdown |
| app.js:214-223 | `disconnect` compares `user.socket` with the socket, but queue entries store `socketId`, so nothing ever matches | `u` is queued from socket `s1`, then `s1` disconnects; `u` stays queued | the first entry on the disconnecting socket is removed with its countdown | not executed | App.DisconnectCounterexample | App.DisconnectRemovesFirst |
| botModule.js:129-133 | `endSession` removes the chat from its maps but does not clear the session's `followUpTimer` | a session with a pending follow-up ends; the follow-up fires and, through the session's own socket, nudges the ended chat | ending a session cancels its follow-up | not executed | BotModule.FollowUpOutlivesSession | BotModule.EndSessionClearsFollowUp |
