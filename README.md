# VPS resource checker bot: a Dafny model

This project models the core of a Discord bot that reports a server's resource use.
The bot is configured with a report channel and a period. It holds one repeating timer.
Each tick of the timer collects a statistics snapshot and posts it to the channel.
Three commands can be typed as `!name args` in chat or invoked as slash commands:

- `setup` chooses the channel and the period.
- `stop` forgets the channel and cancels the timer.
- `status` answers with one report on demand.

The model is split into modules:

- `Strings` (`strings.dfy`) holds the JavaScript text primitives the core relies on:
  - `trim` and its white-space set.
  - `parseInt` with no radix, including sign, leading white space and `0x`.
  - `String(n)` for integers.
  - Round-trip lemmas between them, with the two facts about integer division and multiplication that those proofs and the uptime decomposition in `Stats` share.
- `Stats` (`stats.dfy`) models `src/utils/stats.js`:
  - The "find, else the first" choice of the main disk and the primary network interface.
  - `getSystemStats`, which yields no snapshot instead of failing.
  - `formatUptime`, written as a method that appends to a text, as the source does.
  - The uptime proved against a decomposition that is unique and against a parser it round-trips with.
- `Monitor` (`monitor.dfy`) models the module-level state of `src/index.js` as the class `Bot`:
  - Its fields are `config`, the held timer handle `monitorInterval`, the runtime's live timers, the configuration file `saved`, and an ordered log of outward effects.
  - Its methods are `startMonitoring`, `stopMonitoring`, `sendUpdate`, `loadConfig`, `saveConfig` and a timer tick.
  - `Valid()` states that the only live timer is the one the bot holds.
- `SetupCommand`, `StopCommand` and `StatusCommand` model the three command handlers as methods on a `Bot`.
- `Dispatch` (`dispatch.dfy`) models the two event handlers of `src/index.js`:
  - The bot and prefix filter, and the administrator check.
  - The tokenizer `slice(1).trim().split(/ +/)`, which cuts at runs of spaces, and the lower-cased lookup.
  - The generic error reply for a command that fails, including the follow-up rule on the slash surface.

Effects are modelled as `Event`s appended to `Bot.log`, so orderings can be stated directly:

- save, then restart the timer, then reply;
- defer, then collect statistics, then edit the reply;
- clear the old timer, then send one report, then arm the new timer.

`Gained(after, before, n)` says the log grew by events holding exactly `n` final responses. It is how "exactly one response" is stated.

The outside world enters as parameters:

- the statistics collector's result, as `Option<Readings>`;
- the channel ids that can be fetched, as `set<string>`;
- whether a file write succeeds, as `writeOk`;
- the file contents at start-up, as `Option<Config>`.

Three behaviours of the source are worth stating outright:

- Persistence errors. In `setup` the save sits inside the same `try` as the channel fetch (src/commands/setup.js:40-53). So a failed save gives the invalid-channel reply, with `config` already changed in memory and no restart of monitoring; it is not the generic error. `SetupCommand.Commit` states this. In `stop` the failed save at src/commands/stop.js:10 escapes to the handler before the timer is touched (`StopCommand.Execute` with `ok` false, then the generic reply in `Dispatch.HandleMessage`).
- `loadConfig` does not reset anything to the defaults on a failed read. It leaves `config` as it is, which at start-up is the default (`Monitor.Bot.LoadConfig`, `Monitor.Boot`).
- The stored object has the keys `channelId` and `interval`.

## Model

| member | source | states |
|---|---|---|
| Strings.Trim | src/index.js:163 | the result is the input with only white space removed before it and after it (it is the input's slice after the leading white space), it starts and ends with non-white-space or is empty, and a text that already does is returned unchanged |
| Strings.TrimPadded | src/index.js:163 | trim removes exactly the leading white space and a trailing white-space stretch, keeping the text between them |
| Strings.Decimal | src/utils/stats.js:61-63 | `String(n)` for a natural number: a canonical numeral (digits only, no leading zero except for 0 itself); `Strings.DecimalValue` and `Strings.ValueDecimal` make it the inverse of reading a numeral |
| Strings.IntText | src/commands/setup.js:50 | `String(i)` for an integer: a minus sign before the decimal text of a negative number; `Strings.ParseIntText` proves parseInt reads it back as i |
| Strings.ParseInt | src/commands/setup.js:35 | parseInt with no radix, None standing for NaN; these lemmas state its value on: a written integer reads back whatever non-digit text follows it (`ParseIntTextPrefix`), a minus sign negates (`ParseIntNegative`), and text with no digit is NaN (`ParseIntNaN`) |
| Strings.DecimalValue | src/utils/stats.js:61-63 | the decimal text written for a count reads back as that count |
| Strings.ValueDecimal | src/utils/stats.js:61-63 | a canonical numeral is exactly the text written for its value |
| Strings.ParseIntPrefix | src/commands/setup.js:35 | parseInt reads a written natural number back whatever non-digit text follows it (a lone 0 not followed by x) |
| Strings.ParseIntNegative | src/commands/setup.js:35 | a minus sign before a positive numeral reads back as the negated number |
| Strings.ParseIntTextPrefix | src/commands/setup.js:35 | parseInt inverts String on every integer, with any non-digit suffix |
| Strings.ParseIntText | src/commands/setup.js:35 | parseInt(String(i)) == i for every integer i |
| Strings.ParseIntNaN | src/commands/setup.js:35-36 | text with no decimal digit parses to NaN |
| Stats.FindFirst | src/utils/stats.js:16-17 | the index found satisfies the predicate and no earlier element does; none found means no element does |
| Stats.FindOrFirst | src/utils/stats.js:16-17 | `find(p) \|\| xs[0]`: the first element satisfying p, else the first element, nothing only for an empty list |
| Stats.MainDisk | src/utils/stats.js:16 | the first volume mounted at "/", else the first volume |
| Stats.PrimaryNet | src/utils/stats.js:17 | the first interface whose state is "up", else the first interface |
| Stats.RootVolumePreferred | src/utils/stats.js:16 | whenever some volume is mounted at "/", the chosen disk is a root volume |
| Stats.Decompose | src/utils/stats.js:56-58 | hours < 24, minutes < 60, and the counted seconds are at most the uptime and less than a minute short of it |
| Stats.DecomposeUnique | src/utils/stats.js:56-58 | those bounds determine days, hours and minutes uniquely |
| Stats.Uptime | src/utils/stats.js:55-65 | formatUptime's value: the rendering of the decomposition; `Stats.FormatUptime` computes it by appending, and `Stats.UptimeUnits` and `Stats.UptimeExample` state its units and an instance |
| Stats.Render | src/utils/stats.js:60-64 | the text for days, hours and minutes: "Nd " when there are days, "Nh " when there are hours, always "Nm"; `Stats.RenderIsJoin` shows it is the fields joined by single spaces, and `Stats.UptimeRoundTrip` that `Stats.ParseUptime` inverts it |
| Stats.ParseUptime | src/utils/stats.js:60-64 | a reader for the text those lines write, used as the independent partner of `Render`: `Stats.UptimeRoundTrip` proves it accepts a text as parts p exactly when the text is the rendering of p |
| Stats.FormatUptime | src/utils/stats.js:55-65 | the appended text equals the rendering of the decomposition and parses back to exactly that decomposition |
| Stats.RenderIsJoin | src/utils/stats.js:60-64 | the uptime text is its fields written with single spaces |
| Stats.ParseJoin | src/utils/stats.js:60-64 | fields written with single spaces read back as the same fields |
| Stats.JoinParse | src/utils/stats.js:60-64 | any text the field reader accepts is exactly its fields written back |
| Stats.UptimeRoundTrip | src/utils/stats.js:60-64 | a text reads back as parts p if and only if it is the rendering of p |
| Stats.UptimeUnits | src/utils/stats.js:61-63 | "d" appears iff there are whole days, "h" iff there are hours, and the text ends with "m" |
| Stats.UptimeExample | src/utils/stats.js:55-65 | 86460 seconds is written "1d 1m" |
| Stats.GetSystemStats | src/utils/stats.js:3-53 | a snapshot exists iff the collector succeeded and both lists are non-empty; it carries the host name, the main disk, the primary interface and the uptime text |
| Stats.SnapshotUptime | src/utils/stats.js:46 | the uptime a snapshot carries parses back to the decomposition of the collected seconds |
| Monitor.HasChannel | src/index.js:55 | the truthiness of `config.channelId`: a channel that is present and not the empty string; null and "" both count as no channel |
| Monitor.UpdateEvents | src/index.js:82-97 | a report cycle asks for statistics iff a channel is set, posts at most once, and posts iff the channel is set, a snapshot exists and the channel can be fetched; it never responds to a command |
| Monitor.RestartEvents | src/index.js:67-72 | startMonitoring's effects end with arming the timer at the configured period, start with clearing the held timer if any, and hold exactly the report cycle's deliveries |
| Monitor.Restarted | src/index.js:67-72 | the state startMonitoring leaves: the next handle held and live alone at the configured period, configuration and file unchanged; `Monitor.RestartedFields` shows any state with those fields is this one |
| Monitor.Bot.constructor | src/index.js:29-33 | the process starts with channel null, period 60000 ms and no timer |
| Monitor.Bot.SaveConfig | src/index.js:63-65 | a successful write stores the current configuration; a failed one changes nothing and is reported |
| Monitor.Bot.Emit | src/index.js:183 | one event is appended to the log and nothing else changes, and the responses gained are one exactly when the event is a final response |
| Monitor.Bot.SendUpdate | src/index.js:82-97 | the log grows by exactly the report cycle's events under the current configuration |
| Monitor.Bot.StartMonitoring | src/index.js:67-72 | afterwards exactly one timer is live, the new one, at the current period; the log grows by clear, report cycle, arm, in that order |
| Monitor.Bot.ClearHeld | src/index.js:68 | clearing the held timer leaves no live timer |
| Monitor.Bot.Arm | src/index.js:70 | one new timer is live at the current period and is the one held |
| Monitor.Bot.StopMonitoring | src/index.js:74-80 | no timer is live afterwards; with none held nothing changes at all |
| Monitor.Bot.LoadConfig | src/index.js:51-61 | a missing file changes nothing; a read file replaces the configuration wholesale and restarts monitoring iff it names a channel |
| Monitor.Bot.Tick | src/index.js:70 | a firing timer runs one report cycle under the configuration as it is then |
| Monitor.Boot | src/index.js:148-154 | the stored file is kept; without a file the bot runs on the defaults with no timer and no event; with one it has its configuration and one timer iff a channel is named; with a channel the log is exactly startMonitoring's events from no held timer, the immediate report included, and without one it is empty; it has posted at most once |
| SetupCommand.MentionAt | src/commands/setup.js:31 | a match is the digits between "<#" and ">" at the start of the text |
| SetupCommand.FindMentionFrom | src/commands/setup.js:31 | the unanchored scan finds the leftmost position where a mention starts, and none exists when it finds none |
| SetupCommand.ChannelFromMention | src/commands/setup.js:31-32 | an argument starting with a mention yields that mention's digits |
| SetupCommand.ChannelFromRawId | src/commands/setup.js:31-32 | an argument without '<' is used verbatim |
| SetupCommand.ChannelAfterPlainText | src/commands/setup.js:31-32 | a mention preceded by text without '<' is the one found, whatever follows |
| SetupCommand.ChannelFromArg | src/commands/setup.js:31-32 | the channel rule: the digits of the leftmost mention, else the argument itself; `ChannelFromMention`, `ChannelFromRawId` and `ChannelAfterPlainText` state its cases |
| SetupCommand.Confirmation | src/commands/setup.js:50 | the template `Setup complete! Automatic updates will be sent to <#${channelId}> every ${intervalMins} minute(s).`; `ConfirmationNamesChannel` and `ConfirmationNamesInterval` show both values can be read back from it |
| SetupCommand.ConfirmationNamesChannel | src/commands/setup.js:50 | the confirmation, read with the same channel rule, names the configured channel |
| SetupCommand.ConfirmationNamesInterval | src/commands/setup.js:50 | the confirmation's period, read with parseInt, is the configured number of minutes |
| SetupCommand.FreeTextInterval | src/commands/setup.js:34-37 | the parsed second argument when it is a number of at least 1, else 1; always at least 1 |
| SetupCommand.InteractionInterval | src/commands/setup.js:25 | an absent or zero option means 1, any other value is taken as given |
| SetupCommand.FreeTextIntervalOfNumber | src/commands/setup.js:34-37 | a positive period written as a number is read back unchanged |
| SetupCommand.ParseRequest | src/commands/setup.js:19-38 | usage iff free text without arguments, a fault iff the slash option lacks its channel, otherwise the channel and period by the rules above, the period at least 1 |
| SetupCommand.MentionAndNumber | src/commands/setup.js:27-37 | `!setup <#id> n` with n >= 1 asks for channel id every n minutes |
| SetupCommand.MentionAndText | src/commands/setup.js:34-37 | a period argument without digits falls back to one minute |
| SetupCommand.ReadRequest | src/commands/setup.js:19-38 | the argument handling computes exactly ParseRequest |
| SetupCommand.Committed | src/commands/setup.js:44-53 | the outcome of the guarded part after a successful fetch: config replaced first; a failed save keeps the timer and file and answers with the invalid-channel reply; a successful one stores the config, restarts monitoring and confirms; `SetupCommand.CommittedSaved` and `SetupCommand.AppliedResponds` state its events |
| SetupCommand.Commit | src/commands/setup.js:44-53 | the new state and events are Committed's: config is changed first; on a saved write the file holds it, monitoring restarts and the log grows by save, restart, confirmation in that order; on a failed write only config changes and the reply is the invalid-channel one |
| SetupCommand.Restart | src/commands/setup.js:48-50 | monitoring restarts at the new period before the confirmation is sent |
| SetupCommand.CommittedSaved | src/commands/setup.js:44-50 | after a saved write the state is the restarted one with the new configuration stored, and the events are save, restart, confirmation |
| SetupCommand.AppliedResponds | src/commands/setup.js:40-53 | the guarded part always adds exactly one response, whether the fetch or the save fails or both succeed |
| SetupCommand.Applied | src/commands/setup.js:40-53 | the outcome of the whole guarded part: an unfetchable channel leaves the state as it was with only the invalid-channel reply, otherwise Committed; `SetupCommand.AppliedResponds` proves exactly one response |
| SetupCommand.Apply | src/commands/setup.js:40-53 | the new state and events are Applied's: an unfetchable channel leaves the whole state untouched and adds only the invalid-channel reply; otherwise as Commit |
| SetupCommand.Executed | src/commands/setup.js:16-54 | the outcome of setup: the usage reply with the state unchanged, no effect for a slash call without channel, otherwise Applied on the parsed channel and period; `Dispatch.SetupResponds` proves one response and no generic reply |
| SetupCommand.Execute | src/commands/setup.js:16-54 | the new state and events are Executed's: the usage reply with no state change for free text without arguments; `ok` false with no effect at all for a slash call without channel; otherwise Applied on the parsed channel and period; exactly one response whenever `ok` |
| StopCommand.Executed | src/commands/stop.js:8-13 | the outcome of stop: the channel null with the period kept; when saved, the file holds it, no timer is held or live, and the events are save, clear, reply; a failed save keeps everything else and adds no event; `Dispatch.StopResponds` proves one response exactly when saved |
| StopCommand.Execute | src/commands/stop.js:8-13 | `ok` is the write's success and the channel is null afterwards; the new state and events are Executed's: the period kept, and when saved the file holds that config, no timer is live, and the log grows by save, clear, reply; a failed save escapes with only the channel cleared and no event; exactly one response whenever `ok` |
| StopCommand.ExecuteTwice | src/commands/stop.js:8-13 | when the write succeeds, a second stop leaves the state of the first and repeats only the save and the same reply; when it fails, both stops only null the channel (the period kept) and add no event |
| StatusCommand.Answer | src/commands/status.js:15-28 | the embed iff there is a snapshot, else the failure text |
| StatusCommand.StatusEvents | src/commands/status.js:12-29 | one final response and no post; defer then collect then edit on the slash surface, collect then reply on the chat surface, carrying the answer |
| StatusCommand.Execute | src/commands/status.js:9-30 | the log grows by exactly StatusEvents, one response, and configuration and timer are not touched |
| Dispatch.Split | src/index.js:163 | at least one piece, none containing a space |
| Dispatch.SplitJoin | src/index.js:163 | tokens written with runs of one or more spaces between them split back into the same tokens |
| Dispatch.SplitCons | src/index.js:163 | a space-free piece, a run of spaces and a text not starting with a space split as that piece followed by the text's pieces |
| Dispatch.SplitRejoin | src/index.js:163 | every text is its pieces written back with the runs of spaces it was cut at, one run between each two pieces, and no inner piece is empty |
| Dispatch.SplitTokensNonEmpty | src/index.js:163 | a text not starting or ending with a space splits into non-empty pieces |
| Dispatch.Tokens | src/index.js:163 | the tokens of a message: at least one; `Dispatch.ArgsAreWords` and `Dispatch.TokensOfJoined` state what they are |
| Dispatch.ArgsAreWords | src/index.js:163-164 | the arguments after the command name are never empty and hold no space |
| Dispatch.Lower | src/index.js:164 | lower-casing keeps the length and maps each character |
| Dispatch.Lookup | src/index.js:166 | a command is found only under its exact registered name, and none otherwise |
| Dispatch.LookupName | src/index.js:166 | every command is found under its own name |
| Dispatch.LowerName | src/index.js:164-166 | the registered names are lower case, so lower-casing a typed name can reach them |
| Dispatch.StartsWithBang | src/index.js:157 | `message.content.startsWith('!')`: the text is non-empty and its first character is '!' |
| Dispatch.RouteMessage | src/index.js:156-167 | ignored iff from a bot or without "!"; rejected iff not an administrator, whatever the name; unknown iff the lower-cased first token names no command; otherwise that command with the remaining tokens |
| Dispatch.RouteInteraction | src/index.js:187-191 | ignored iff not a chat-input command, never rejected, unknown iff the exact name is unregistered |
| Dispatch.RouteWrittenCommand | src/index.js:156-167 | an administrator's "!" with a name in any case and its arguments, separated by runs of spaces, reaches that command with exactly those arguments |
| Dispatch.TokensOfJoined | src/index.js:163 | the tokens of "!" followed by tokens written with runs of spaces between them are those tokens |
| Dispatch.FaultResponse | src/index.js:202-211 | exactly one generic error response; private on the slash surface; a follow-up iff the slash invocation was already replied to or deferred |
| Dispatch.Acknowledged | src/index.js:206 | `interaction.replied \|\| interaction.deferred` after the failed command's events: a deferral or a reply is among them; `Dispatch.FaultResponse` turns it into a follow-up |
| Dispatch.FaultAfterDeferral | src/index.js:206-207 | after a deferral the error goes out as a follow-up |
| Dispatch.Succeeds | src/index.js:179-184 | a command escapes with an error only as the source lets it: setup without a slash channel, stop on a failed save, status never; `Dispatch.Run` returns it as `ok` |
| Dispatch.Executed | src/index.js:180 | the outcome of `command.execute`: setup's or stop's own outcome, or status's events with the state unchanged; `Dispatch.ExecutedResponds` states its responses |
| Dispatch.ExecutedResponds | src/index.js:179-184 | a command that completes adds exactly one response and none of its events is the generic error reply; a command that escapes with an error has added no event at all |
| Dispatch.Run | src/index.js:180 | `ok` is true exactly when the command does not escape with an error (setup only without a slash channel, stop only on a failed save, status never); the new state and the added events are that command's own outcome |
| Dispatch.Guarded | src/index.js:179-184 | the command's own outcome, followed by the generic reply chosen by FaultResponse only when it escaped with an error, so exactly one response in all; used by both handlers |
| Dispatch.HandleMessage | src/index.js:156-185 | follows RouteMessage; ignored and unknown messages have no effect; a non-administrator gets only the refusal; a dispatched command leaves its own outcome's state and events, followed by the generic reply only when it escaped with an error, so exactly one response in all |
| Dispatch.HandleInteraction | src/index.js:187-212 | follows RouteInteraction; ignored and unknown calls have no effect; a dispatched command leaves its own outcome's state and events, followed by the private generic reply only when it escaped with an error, so exactly one response in all |
| Dispatch.SetupMessageRoute | src/index.js:156-167 | `!setup`, a channel argument and a period argument, one space apart, reach setup with exactly those two arguments |
| Dispatch.SetupConfigured | src/commands/setup.js:40-50 | a request for a fetchable channel with a writable file completes, saves that configuration, restarts monitoring and ends with the confirmation |
| Dispatch.SetupByMention | src/commands/setup.js:27-53 | `!setup <#d> n` from an administrator, for a fetchable d, n >= 1 and a writable file: reports go to d every n minutes, that is saved, the one live timer runs at n minutes, and the last event is the confirmation |
| Dispatch.SetupByMentionAndWord | src/commands/setup.js:34-37 | `!setup <#d> t` with a word t without digits does the same at one minute (60000 ms) |
| Dispatch.SetupEveryTenMinutes | src/commands/setup.js:27-53 | `!setup <#500> 10` leaves channel 500 at 600000 ms, saved, with one timer at that period, and the last event is the reply "Setup complete! Automatic updates will be sent to <#500> every 10 minute(s)." |
| Dispatch.SetupWithoutNumber | src/commands/setup.js:34-37 | `!setup <#111> notanumber` leaves channel 111 at 60000 ms, saved, with one timer at that period, and the last event is the reply "Setup complete! Automatic updates will be sent to <#111> every 1 minute(s)." |

## Left out

- The discord.js client, gateway events and login are left out as library plumbing. A message or interaction is a plain value (`ChatMessage`, `SlashCommand`), and a reply is an `Event`.
- The embed layout of `createStatsEmbed` (src/index.js:99-121) is presentation. A report is an opaque `Embed(snapshot)`.
- The snapshot carries only host name, main disk, primary interface and uptime. CPU, memory, swap, load and process figures are floating-point formatting of collector values.
- The local time of day (`toLocaleTimeString`) is a clock reading.
- REST command registration, the guild or global choice, and the slash command definitions (src/index.js:123-146) are transport plumbing. The registry is the fixed `Dispatch.Lookup`.
- Loading commands by scanning a directory (src/index.js:35-49) is replaced by that fixed registry.
- File I/O and JSON are left out. The file is the field `Bot.saved`: None stands for a missing or unparsable file, and a successful write stores the configuration.
- Monitor.Bot.LoadConfig: a file that parses as JSON but is not a configuration object is not modelled; the stored value is always a `Config`, as every file the bot writes itself is. In the source, a file holding `null` sets `config` to null and the lookup of `channelId` throws, which the empty `catch` swallows. From then on `!stop` always gets the generic error, and `!setup` with a channel argument always gets the invalid-channel reply (without arguments it still gets the usage reply, which returns before `config` is touched), because its assignment to `config.channelId` throws inside its `try`. A file with a `channelId` but no `interval` arms the timer with an undefined delay, which Node runs every millisecond. `Monitor.Boot`'s timer count holds only for configuration-shaped files.
- Monitor.Bot.SaveConfig: a partially written file is not modelled. A failed write leaves the old contents.
- Strings.ParseInt: JavaScript's parseInt returns a double, so integers above 2^53 are rounded (9007199254740993 reads as 9007199254740992), and `intervalMins * 60000` is a double product too. The model reads and multiplies exact integers.
- Monitor.Bot.Arm: Node replaces a setInterval delay above 2147483647 ms (or below 1 ms) with 1 ms, so `!setup <#id> 35792` (2147520000 ms) would fire every millisecond. The model records and arms the requested period.
- Timer timing and the interleaving of timer callbacks with awaiting handlers are concurrency. A timer is a live handle with a period, and a tick is `Monitor.Bot.Tick`.
- Monitor.Bot.StartMonitoring: the immediate `sendUpdate` is not awaited by the source. The model lets its effects complete before the new timer is armed.
- Failures of `reply`, `editReply`, `deferReply` and `followUp` are not modelled. Without them no modelled command fails after it has answered or deferred. So the follow-up branch of the slash error path is stated in `Dispatch.FaultResponse` and `Dispatch.FaultAfterDeferral` but is not reached from `Dispatch.HandleInteraction`.
- A failed channel fetch is modelled; a failed channel send is modelled as a skipped post. Both are membership in the `channels` set.
- The `member` of a direct message being null, which would make the administrator check itself throw, is not modelled. Messages are assumed to come from a server.
- `console` logging is left out.
- Stats.FormatUptime: the uptime in seconds is a natural number. Fractional seconds from the collector are left out (floating point).
- Strings.IntText and Strings.Decimal write integers as JavaScript does only below 10^21. Larger numbers switch to exponent notation, which is not modelled.
- Dispatch.Lower: lower-casing is ASCII-only. No other character lower-cases to a letter of `setup`, `stop` or `status`, so routing is unaffected.
- SetupCommand.InteractionInterval: the minimum of 1 on the slash option is enforced by the platform, not by the code. The model takes any integer and states the bound only for non-negative values.
- The administrator-only default permission of the slash commands is enforced by the platform. `Dispatch.HandleInteraction` has no administrator check, as in the code.
