# PhoenixSMP presence bot: the session controller in Dafny

`bot.js` keeps one Minecraft account logged in to a server. It connects with
Mineflayer and keeps two idle drivers running while the session lives. One
randomly presses movement controls every 5 s. The other posts a random flavour
message every 10 minutes. The bot answers a few chat triggers, sends
`/vanish on` and `/vanish off` as other players come and go, and reconnects
after every disconnect.

This project models that controller:

- `Backoff` (`backoff.dfy`): the reconnect delays. An ordinary disconnect waits
  `min(300000, retryCount * 20000)` ms and a kick waits a fixed 20000 ms.
- `Config` (`config.dfy`): start-up configuration. The server entry is the first
  comma-separated entry of `MC_SERVERS` or the built-in default. It is split into
  host and port, and the port defaults to 25565. The username is `MC_USERNAME` or
  `PhoenixSMPBot`. JavaScript's `split` is modelled with its inverse `Join`, and
  decimal port digits with their inverse `Decimal`.
- `Chat` (`chat.dfy`): the chat trigger responder, as a pure function from (own
  name, speaker, message) to the ordered replies. A regular expression with the
  `i` flag but without `u` folds only ASCII letters onto ASCII letters. So for
  the patterns `hi bot` and `afk\??` the model is exact: ASCII lower-casing,
  then a substring search. The optional `?` never changes whether `afk\??`
  matches.
- `Presence` (`presence.dfy`): the `realPlayersOnline` counter as pure steps over
  join/leave events, and runs of many events.
- `Idle` (`idle.dfy`): the motion controls and the chat message list. Each
  `Math.random()` draw becomes a real number in [0, 1). The thresholds 0.7, 0.5,
  0.5, 0.3 and 0.2, the message index `floor(r * 5)` and the yaw/pitch
  arithmetic are kept as written.
- `Controller` (`controller.dfy`): the module-level `let` state as the fields of
  class `Bot`. The safe wrappers, `startAFK`/`stopAFK`, `startAFKChat`/`stopAFKChat`,
  the two interval callbacks and the seven event handlers are its methods. The
  session is a value: endpoint, username, whether it has an entity, whether its
  client is open (`_client` present and not destroyed), the control states and
  the facing direction. Chat lines that reach the server, and the delays handed
  to `setTimeout(createBot, …)`, are logs.
- `Scenarios` (`scenarios.dfy`): event sequences driven through a fresh `Bot`,
  for any configured name and server, each with the outcome the code guarantees.

All handlers act on the module-level variables only. So an event from a
superseded bot object runs the same handler code as the same event from the
current one, and the model lets the events arrive in any order. The one
difference is the library's own effect at `spawn`: the bot that spawns gets its
entity, and that is the session `bot` holds only if no later `createBot` has
replaced it. `Controller.Bot.Spawn` takes that as a parameter.

`setInterval` overwrites `afkInterval`/`chatInterval` without clearing the
interval they held. So the model counts running intervals that no handle refers
to any more (`strayMotionTimers`, `strayChatTimers`). A kick followed by the
connection's end schedules two reconnects, which can spawn two sessions in turn.
`Scenarios.OverlappingReconnects` shows that this leaves one interval of each
kind running that no later stop reaches.

The model follows the code as written, including these behaviours a reader might not expect:

- `/vanish on` is sent on every join of another player, not only when the count
  goes from 0 to 1.
- `/vanish off` is sent on every leave of another player that leaves the count at
  0, including a leave when the count was already 0.
- A kick does not count as an attempt (`retryCount` is unchanged).
- A network error does not count as an attempt either; only the `end` event that
  follows it does.
- A kick followed by an end schedules two reconnects, not one.
- Movement controls are released only through `stopAFK`: when the session has an
  entity and an open client.
- `realPlayersOnline` is never reset, not even across reconnects.

## Model

| member | source | states |
|---|---|---|
| Backoff.EndDelay | bot.js:116 | the disconnect delay is the minimum of 300000 and retryCount·20000: below both, and equal to one of them |
| Backoff.EndDelayMonotone | bot.js:115-116 | a larger retry count never gives a shorter delay |
| Backoff.EndDelayLinear | bot.js:116 | below the ceiling the delay is exactly retryCount·20000 |
| Backoff.EndDelaySaturates | bot.js:116 | from the 15th consecutive disconnect on, the delay is the 300000 ceiling |
| Backoff.EndDelays | bot.js:112-119 | k consecutive disconnects request k delays, none above the ceiling |
| Backoff.EndDelaysSorted | bot.js:112-119 | the delays of consecutive disconnects never decrease |
| Backoff.EndDelaysAt | bot.js:115-116 | the i-th of consecutive delays is the delay for counter start+i+1, because the counter is bumped before the delay is computed |
| Backoff.ThreeDisconnectDelays | bot.js:112-119 | from counter 0, three disconnects wait 20000, 40000 and 60000 ms |
| Config.Split | bot.js:3-4 | String.split yields at least one piece, and no piece holds the separator |
| Config.JoinSplit | bot.js:3-4 | joining the pieces of a split with the separator gives back the original string |
| Config.SplitWithoutSeparator | bot.js:4 | a string without the separator splits into itself alone |
| Config.SplitAtFirst | bot.js:3-4 | the first piece is exactly the text before the first separator |
| Config.SplitHead | bot.js:4 | for every string, the first piece is a prefix; there are further pieces exactly when the separator occurs, and then they are the split of the text after the first separator |
| Config.ServerEntry | bot.js:3 | the server entry is never empty; it is the first comma piece when that is non-empty |
| Config.DigitsValue | bot.js:76 | the exact value of a digit string (parseInt's, up to 2^53): a single digit stands for itself, no digits give 0 |
| Config.DigitsValueDecimal | bot.js:76 | reading back a port's decimal digits gives the port number |
| Config.DigitsLeadingZero | bot.js:76 | a leading zero adds nothing to the value of a digit string |
| Config.PortOf | bot.js:76 | an absent or empty port segment gives 25565, an all-digit segment gives its exact value (parseInt's, up to 2^53) |
| Config.ParseEntry | bot.js:4 | the host taken from an entry contains neither ':' nor ',' |
| Config.EntryMeaning | bot.js:4 | for every entry: the host is a prefix of it, the whole entry with port 25565 when it has no colon; otherwise a colon follows the host and the port is read from the text after it up to the next colon |
| Config.EntryHostRest | bot.js:4 | for every colon-free host: the host alone gets port 25565, and host:rest gets the port of rest's text before any further colon |
| Config.EntryTrailingColon | bot.js:76 | host: (an empty port segment, which is falsy) keeps port 25565 |
| Config.EntryLeadingZero | bot.js:76 | host:080 is port 80 |
| Config.EntrySecondColon | bot.js:4 | host:1:2 is port 1: the text after a second colon is dropped |
| Config.ParseServer | bot.js:3-4 | the host of the parsed endpoint contains neither ':' nor ',' |
| Config.EntryHostPort | bot.js:4 | an entry host:n, with n written in decimal without leading zeros, yields that host and port n |
| Config.ParseHostPort | bot.js:3-4 | a server list host:n, with n in decimal without leading zeros (host without ':' or ','), parses back to that host and port n |
| Config.ParseHostOnly | bot.js:76 | an entry with no colon keeps the whole entry as host, with port 25565 |
| Config.ParseFirstEntry | bot.js:3 | only the text before the first comma of the list is used |
| Config.ParseMissingList | bot.js:3 | with no list the default server play.phoenixsmp.qzz.io port 20722 is used |
| Config.ParseEmptyEntry | bot.js:3 | an empty list, or an empty first entry, falls back to the default server too |
| Config.ParseExampleWithPort | bot.js:3-4 | "example.com:19132" yields host example.com and port 19132 |
| Config.ParseExampleWithoutPort | bot.js:76 | "example.com" yields host example.com and port 25565 |
| Config.Username | bot.js:5 | the bot's name is never empty: MC_USERNAME when set and non-empty, otherwise PhoenixSMPBot |
| Chat.Greeting | bot.js:91 | the greeting starts "Hello " and carries the speaker's name right after it |
| Chat.Contains | bot.js:91-92 | the regular-expression search: it never finds a pattern longer than the text, and always finds the empty pattern |
| Chat.ContainsOccurs | bot.js:91-92 | a successful pattern search has found an occurrence at some index |
| Chat.OccursContains | bot.js:91-92 | every occurrence of the pattern is found by the search |
| Chat.ContainsIff | bot.js:91-92 | the search succeeds if and only if the pattern occurs somewhere |
| Chat.TriggerMentionsNoPattern | bot.js:93-95 | the exact texts !vanish on, !vanish off and !state fire neither pattern rule |
| Chat.Replies | bot.js:89-96 | no replies to the bot's own messages; otherwise each of the five replies is present exactly when its rule holds (case-insensitive "hi bot" or "afk" occurrence, or exact text), and the number of replies is the number of rules that hold |
| Chat.RuleReplies | bot.js:91-95 | the five independent rules: at most five replies, each one of the five possible replies, the greeting first whenever it fires |
| Chat.GreetingBeforeAffirmation | bot.js:91-92 | when both pattern rules fire, the greeting is sent before the affirmation |
| Chat.HiBotGreetsSpeaker | bot.js:91 | "hi bot" from anyone else yields exactly one greeting, addressed to that speaker |
| Chat.MixedCaseGreets | bot.js:91 | "Hi BOT" greets exactly like "hi bot" |
| Chat.HiBotAfkTwoReplies | bot.js:91-92 | "hi bot afk" yields the greeting and then the affirmation |
| Presence.Join | bot.js:98-103 | the bot's own join changes nothing; every other join raises the count by one and sends /vanish on |
| Presence.Leave | bot.js:105-110 | the bot's own leave changes nothing; another leave lowers the count by one, clamped at 0, and sends /vanish off exactly when the count is then 0 |
| Presence.RunNeverNegative | bot.js:105-110 | from a non-negative count, no sequence of joins and leaves makes the count negative |
| Presence.RunIgnoresSelf | bot.js:98-110 | events that name the bot itself change no count and send nothing |
| Presence.RunJoinsOnly | bot.js:98-103 | joins alone raise the count by the number of other players and send /vanish on once per such join |
| Presence.AliceThenBob | bot.js:98-103 | Alice then Bob joining takes the count to 2 and sends /vanish on twice |
| Idle.Released | bot.js:37 | stopAFK's release covers exactly the six directions, each set false |
| Idle.MotionFlags | bot.js:43-47 | a motion tick sets exactly forward, left, right, jump and sneak, never back, each by its threshold |
| Idle.MotionFlagsInOrder | bot.js:43-47 | the five successive setControlState calls amount to applying the tick's flag map |
| Idle.Yaw | bot.js:48 | the yaw a tick looks at lies in [0, 360) |
| Idle.Pitch | bot.js:48 | the pitch a tick looks at lies in [-90, 90) |
| Idle.MessageIndex | bot.js:62 | floor(random · length) is always an index of the five-message list |
| Idle.EveryMessageReachable | bot.js:53-62 | every one of the five messages is chosen by some draw |
| Controller.ReleaseAll | bot.js:34-38 | with an entity and an open client all six directions end up false, every other control keeps its value and every other field of the session is unchanged; otherwise the session is untouched |
| Controller.ReleaseAllIdempotent | bot.js:34-38 | a second stopAFK changes nothing the first did not |
| Controller.Close | bot.js:127 | bot.end() leaves the client closed, and closes it only when it was open |
| Controller.Bot.constructor | bot.js:10-14 | the start-up state for the configured name and server: no bot, both timers off, both counters 0, empty logs |
| Controller.Bot.Connect | bot.js:74-80 | createBot installs a fresh open session without entity for the configured endpoint and name |
| Controller.Bot.SafeSetControl | bot.js:20-25 | sets one control only when there is a bot with an entity and an open client, else changes nothing |
| Controller.Bot.SafeChat | bot.js:27-32 | a line reaches the server only when there is a bot with an open client, else nothing is sent |
| Controller.Bot.StopAFK | bot.js:34-38 | the motion timer is off and the session is the ReleaseAll of the old one |
| Controller.Bot.StartAFK | bot.js:40-50 | the motion timer is on; an interval still running under the old handle is counted as stray |
| Controller.Bot.StartAFKChat | bot.js:52-65 | the chat timer is on; an interval still running under the old handle is counted as stray |
| Controller.Bot.StopAFKChat | bot.js:67-69 | the chat timer is off, whether or not it was on |
| Controller.Bot.MotionTick | bot.js:41-49 | with no entity or a closed client nothing changes; otherwise the five flags and the facing are those of the draws, and back is untouched |
| Controller.Bot.ChatTick | bot.js:60-64 | with no entity or a closed client nothing is sent; otherwise the chosen list message is sent |
| Controller.Bot.Spawn | bot.js:82-87 | the retry counter is reset and both timers are on, any overwritten running handle counted as stray; the session `bot` holds gains its entity only when the spawning bot is still that session |
| Controller.Bot.ChatReceived | bot.js:89-96 | exactly the responder's replies reach the server when the client is open, nothing otherwise |
| Controller.Bot.Respond | bot.js:91-95 | one rule's `if`: its reply is sent exactly when the rule fires and the client is open |
| Controller.Bot.PlayerJoined | bot.js:98-103 | with a bot, the count and the sent lines follow Presence.Join; the count stays non-negative |
| Controller.Bot.PlayerLeft | bot.js:105-110 | with a bot, the count and the sent lines follow Presence.Leave; the count stays non-negative |
| Controller.Bot.End | bot.js:112-119 | both timers off, directions released, counter bumped, and the backed-off delay of the new counter scheduled |
| Controller.Bot.Error | bot.js:121-129 | ECONNRESET/ETIMEDOUT: both timers off, directions released, client closed if it was open; any other code changes nothing |
| Controller.Bot.Kicked | bot.js:131-141 | both timers off, directions released, 20000 ms scheduled; retry counter and player count untouched |
| Scenarios.ThreeDisconnects | bot.js:112-119 | spawn then three disconnects schedule 20000, 40000 and 60000 ms |
| Scenarios.KickKeepsCounters | bot.js:131-141 | with one other player online, after two disconnects and a kick the counter still reads 2, the player count 1, and the kick waits 20000 ms |
| Scenarios.KickThenEnd | bot.js:112-141 | a kick followed by the end schedules two reconnects, both after 20000 ms, with both timers off |
| Scenarios.OverlappingReconnects | bot.js:40-50 | two sessions spawned from the two pending reconnects leave one motion and one chat interval that no handle refers to, and both still run after the next `end` stops the timers |
| Scenarios.NetworkErrorSilences | bot.js:121-129 | after ECONNRESET or ETIMEDOUT the timers are off, and then no chat message and no join sends anything |
| Scenarios.OtherErrorIgnored | bot.js:121-129 | after any other error code the timers still run and "hi bot" from another player is still answered |
| Scenarios.TwoPlayersComeAndGo | bot.js:98-110 | two other players joining and then leaving send /vanish on, /vanish on, /vanish off and bring the count back to 0 |
| Scenarios.LeaveFromEmpty | bot.js:105-110 | a leave of a player never seen joining keeps the count at 0 and still sends /vanish off |
| Scenarios.SupersededSpawnIdle | bot.js:60-64 | when the first of two pending reconnects spawns after the second has replaced it, both timers run but a chat tick sends nothing, because the current bot has no entity yet |
| Scenarios.OwnEventsInert | bot.js:98-110 | the bot's own join and leave neither change the count nor send anything |

## Left out

- Mineflayer itself (`mineflayer.createBot`, the protocol and event dispatch): a foreign library. Each event is a method call on `Bot`, and a superseded bot's events are ordinary calls.
- The library's own state changes: the model gives the session its entity at `spawn` when the spawning bot is the current one. It marks the client closed only through the `error` handler's `bot.end()`. `End` leaves the openness as it found it. The `end` event that `bot.end()` triggers is a separate call.
- Exceptions thrown by the library inside the `try { … } catch {}` blocks: every call that passes its guard is taken to succeed.
- Real time: the 5 s and 10 min periods and the timeouts themselves. Timers are on/off flags plus stray counts. Scheduled reconnects are a log of requested delays, and the timeout firing is a call to `Connect`.
- Floating point: `Math.random()` draws are real numbers, so IEEE rounding of `r * 5`, `r * 360` and `r * 180 - 90` is not modelled.
- Logging and `timestamp()`: output only.
- The kick reason and its `JSON.stringify` normalisation, and the error's message: both only feed log lines.
- The `auth: "offline"` and `version: false` options: passed to the library unchanged.
- Reading `process.env`: the raw `MC_USERNAME` and `MC_SERVERS` values are parameters.
- Config.PortOf: a port segment that is not all ASCII digits is returned as `Unparsed(text)`, not as what `parseInt` would make of it (leading whitespace, signs, `0x`, trailing junk, `NaN`). An all-digit segment is read exactly, while `parseInt`'s double result rounds above 2^53 and is `Infinity` for very long digit strings; every port up to 65535 is exact.
- Unicode case folding: only ASCII letters are folded. For these patterns this is what the `i` flag without `u` does.
