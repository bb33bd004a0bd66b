# PingTool probe pipeline in Dafny

PingTool is a small Qt desktop front end for the system `ping` and
`traceroute` tools. This project models its probe pipeline in three pieces
and proves properties of each.

1. **Command builder.** It turns a host and the options panel
   (`PingOptions`) into the program name and the argument vector that are
   launched. There is one branch for Windows and one for POSIX systems. The
   platform is a parameter here, in place of the compile-time detection in
   the source.
2. **Output parser.**
   - Four extractors, each recognising one fixed summary shape:
     - the Windows packet summary;
     - the Windows round-trip summary;
     - the Linux/BSD packet summary;
     - the Linux/BSD round-trip summary.
   - `parse`. It runs all four extractors over every line of the captured
     output, so a later match overwrites an earlier one. A whole-text retry
     then runs for each category that is still missing.
   - The reply-line counter that drives the progress bar.
3. **Probe runner.** This is the main window's process-lifecycle slots.
   - The host-list tokenizer.
   - The ping and traceroute requests.
   - The host queue, which is drained one process at a time.
   - Output accumulation, reply counting and the progress bar.
   - Process exit, process error and Stop.

   The runner appears in two forms:
   - as pure step functions over a `Window` value (module `Session`), where
     the lemmas about event sequences live;
   - as the class `Runner.ProbeRunner`, with the window's fields as mutable
     fields and one method per slot. Each method is proved to perform the
     step function of the same name and to keep the invariant
     `Session.Valid`.

`QProcess` is not modelled as a process. It is a source of events, given to
the runner as method arguments:
- whether the start succeeded;
- an output chunk;
- process exit;
- process error;
- Stop, with whether the killed process exits inside the wait.

**Stop as two steps.** Stop kills the process and then waits for it. Qt
delivers `finished` from inside that wait, so the exit handler can run before
Stop clears the host queue. Stop is therefore modelled as kill, then an
optional exit handled inside the wait, then the rest of the slot. That order
is what exposes the finding below.

**Regular expressions.** They are hand-written matchers over `seq<char>`:
- keywords compare case-insensitively, folding the ASCII letters `A`-`Z` only;
- `\s` is the ASCII set space, tab, LF, VT, FF, CR;
- digit and decimal captures are greedy;
- summary patterns are searched at every start position, left to right;
- reply patterns are anchored at the line start after optional blanks.

For these fixed patterns the greedy capture is the only one that can succeed
at a given start position. Each capture is followed by a character the
capture cannot contain: a blank, `,`, `%`, `/`, `m` or `(`. So modelling
greedy runs without backtracking gives the regex engine's answer.

**Numbers.**
- Digit captures are read as unbounded naturals.
- `[0-9.]` captures are read as exact rationals (`real`).
- The interval is carried in thousandths of a second.
- C++ truncating `/` and `%` are written out (`Text.CDiv`, `Text.CRem`).

**Behaviours kept as the code has them.**
- Every line runs all four extractors, so the last matching line wins
  (src/PingOutputParser.cpp:78-84).
- A failed start and a process error leave the host queue as it was
  (src/PingToolWindow.cpp:214-220, 488-494).
- The 100 that the exit handler puts on the bar is transient, because
  `setRunning(false)` resets it to 0 straight after
  (src/PingToolWindow.cpp:469-486).

**Modules.**
- `Wrappers`: `Option`.
- `Text`: character classes, trimming, number/text conversion.
- `CommandBuilder`.
- `Patterns`: the matchers, and round trips for the summary texts they
  accept. A layout value (`WinPacketsLayout`, `WinRttLayout`,
  `UnixPacketsLayout`, `UnixRttLayout`, `FromLayout`) holds one blank run per
  `\s*` or `\s+` of a pattern and one spelling per literal. The round trips
  hold for every layout whose runs are blanks (non-empty for `\s+`) and whose
  spellings match their literal letter by letter up to ASCII case. The
  alternatives `rtt`/`round-trip` and `mdev`/`stddev`, the optional
  `packets` and the optional `+` are chosen independently.
- `LineSplit`: the split at `\r?\n`.
- `OutputParser`.
- `Hosts`.
- `Session`.
- `Runner`.

## Model

| member | source | states |
|---|---|---|
| CommandBuilder.BuildPing | src/PingCommandBuilder.cpp:23-69 | the program is `ping` on both platforms; the first argument is `-6`/`-4` by the IPv6 flag; the last argument is the single trimmed host |
| CommandBuilder.BuildTraceroute | src/PingCommandBuilder.cpp:71-89 | the program is `tracert` on Windows and `traceroute` otherwise; the arguments are exactly the family flag and the trimmed host |
| CommandBuilder.TimeoutSeconds | src/PingCommandBuilder.cpp:56-57 | the `-W` value is at least 1; it is 1 for timeouts up to 1000 ms; for positive timeouts it is the ceiling of ms/1000 |
| CommandBuilder.WindowsPingArgs | src/PingCommandBuilder.cpp:30-44 | the Windows vector has length 7 or 8; `-t` appears exactly when count <= 0, otherwise `-n count`; then `-w timeout` and `-l payload`, passed verbatim |
| CommandBuilder.WindowsNoInterval | src/PingCommandBuilder.cpp:30-44 | no `-i` appears among the Windows options: the interval is ignored there |
| CommandBuilder.PosixPingArgs | src/PingCommandBuilder.cpp:45-67 | the POSIX vector is `[-4/-6, (-c n)?, -W secs, -i interval, -s max(0,payload), host]` in that order, with `-c` only when count > 0 |
| CommandBuilder.PosixCountFlag | src/PingCommandBuilder.cpp:53 | `-c` occurs among the POSIX options if and only if count > 0 |
| CommandBuilder.IntervalTextValue | src/PingCommandBuilder.cpp:60-62 | the `-i` text reads back as max(0.2 s, interval), in seconds |
| CommandBuilder.PosixRoundingExamples | src/PingCommandBuilder.cpp:56-62 | 1500 ms gives `-W 2`; 1000 ms and 1 ms give 1; intervals of 0.1 s and 1 s give `0.200` and `1.000` |
| CommandBuilder.PosixDefaultOptionsExample | src/PingCommandBuilder.cpp:45-67 | the full POSIX vector for the default options |
| CommandBuilder.WindowsDefaultOptionsExample | src/PingCommandBuilder.cpp:30-44 | the full Windows vector for the default options |
| Text.Trim | src/PingCommandBuilder.cpp:67 | the trimmed host is a slice of the text with only blanks before and after it; it is empty exactly when the text is all blanks; otherwise it begins and ends with a non-blank; a text without blanks is unchanged |
| Patterns.Search | src/PingOutputParser.cpp:10 | an unanchored match returns the match at the leftmost start position that matches, and none when no position matches |
| Patterns.WinPacketsAt | src/PingOutputParser.cpp:8-10 | a match captures digit runs for the counts |
| Patterns.WinRttAt | src/PingOutputParser.cpp:24-26 | a match captures three digit runs |
| Patterns.UnixPacketsAt | src/PingOutputParser.cpp:40-42 | a match captures digit runs for the counts and a `[0-9.]` run for the loss |
| Patterns.UnixRttAt | src/PingOutputParser.cpp:60-62 | a match captures `[0-9.]` runs for the times |
| Patterns.WinPacketsRoundTrip | src/PingOutputParser.cpp:8 | a Windows packet summary in any letter case and with any blank runs (for example `Packets: Sent = a, Received = b, Lost = c (d% loss)`) is matched, and all four numbers come back |
| Patterns.WinRttRoundTrip | src/PingOutputParser.cpp:24 | a Windows round-trip summary in any letter case and with any blank runs (for example `Minimum = ams, Maximum = bms, Average = cms`) is matched, and the three numbers come back |
| Patterns.UnixPacketsRoundTrip | src/PingOutputParser.cpp:40 | a Unix packet summary in any letter case and with any non-empty blank runs, with or without the optional `packets`, with or without an errors segment and its `+`, is matched, and the counts, the optional error count and the loss come back |
| Patterns.UnixRttRoundTrip | src/PingOutputParser.cpp:60 | a Unix round-trip summary with `rtt` or `round-trip` and, independently, `mdev` or `stddev`, in any letter case and with any blank runs, is matched, and the four figures come back in order |
| Patterns.PlainLayouts | src/PingOutputParser.cpp:4-70 | the layouts of the example summaries written by Windows, iputils and the BSD utility are layouts the patterns read, as are `Reply`, `bytes` and ` from ` |
| Patterns.Indented | src/PingOutputParser.cpp:8-10 | leading blanks do not change what any summary search finds |
| Patterns.WinReplyLine | src/PingOutputParser.cpp:105 | an indented `Reply from ` line, in any letter case and with any non-empty blank runs, is a Windows reply line |
| Patterns.UnixReplyLine | src/PingOutputParser.cpp:106 | an indented `<digits> bytes from ` line, in any letter case and with any non-empty blank runs, is a Unix reply line |
| Patterns.BareReplyLine | src/PingOutputParser.cpp:107 | an indented `bytes from ` line, in any letter case and with any non-empty blank runs, is a reply line |
| Patterns.NotReplyLine | src/PingOutputParser.cpp:105-107 | a line whose first non-blank character is not `r`, `b` or a digit matches none of the reply patterns |
| LineSplit.Lines | src/PingOutputParser.cpp:77 | splitting yields at least one part; no part holds a line feed; a text without line feeds is one part |
| LineSplit.LinesOfJoin | src/PingOutputParser.cpp:77 | splitting at `\r?\n` undoes joining with `\n` or `\r\n`, empty lines included |
| LineSplit.LoneCarriageReturn | src/PingOutputParser.cpp:77 | a carriage return without a line feed does not split |
| LineSplit.CrLfExample | src/PingOutputParser.cpp:77 | `a\r\n\r\nb` splits into `a`, an empty line and `b` |
| OutputParser.WindowsPacketsFrom | src/PingOutputParser.cpp:11-17 | a Windows packet match sets the flag and four non-negative counters, leaves the round-trip fields alone, and without a match changes nothing |
| OutputParser.WindowsRttFrom | src/PingOutputParser.cpp:27-33 | a Windows round-trip match sets the flag and three times and forces the deviation to -1, leaves the packet fields alone, and without a match changes nothing |
| OutputParser.UnixPacketsFrom | src/PingOutputParser.cpp:43-51 | a Unix packet match sets the flag, the counts and the loss, with lost = sent - received; the packet fields are untouched otherwise |
| OutputParser.UnixRttFrom | src/PingOutputParser.cpp:63-69 | a Unix round-trip match sets the flag and all four times; the packet fields are untouched |
| OutputParser.WindowsPacketsLine | src/PingOutputParser.cpp:4-18 | an indented Windows packet summary, in any layout the pattern reads, sets exactly its four numbers |
| OutputParser.WindowsRttLine | src/PingOutputParser.cpp:20-34 | a Windows round-trip summary, in any layout the pattern reads, sets min, max, avg in textual order and the deviation to -1 |
| OutputParser.UnixPacketsLine | src/PingOutputParser.cpp:36-52 | a Unix packet summary, in any layout the pattern reads, sets the counts and the loss, discards the error count and derives lost = sent - received |
| OutputParser.UnixRttLine | src/PingOutputParser.cpp:54-70 | a Unix round-trip summary, in any layout the pattern reads, sets min, avg, max, deviation in slash order |
| OutputParser.Update | src/PingOutputParser.cpp:80-83 | a line without a packet summary leaves the packet fields alone; the same holds for round-trip fields; a summary sets its flag |
| OutputParser.Fallback | src/PingOutputParser.cpp:86-94 | a category already found on a line is never replaced; a missing packet category and a missing round-trip category are each what the whole-text extractors give |
| OutputParser.RttRetryReadsRtt | src/PingOutputParser.cpp:90-93 | the whole-text round-trip retry depends on nothing of the summary but its round-trip part |
| OutputParser.Parse | src/PingOutputParser.cpp:72-96 | the loop over the lines plus the fallback computes `ParsedStats`, the specification the lemmas below are about |
| OutputParser.LinePassIsReplay | src/PingOutputParser.cpp:78-84 | the line pass is the replay of the per-line matches in line order |
| OutputParser.ReplayAppend | src/PingOutputParser.cpp:78-84 | replaying two runs of lines is replaying the second from the first's result |
| OutputParser.PacketsUntouched | src/PingOutputParser.cpp:78-84 | lines without a packet summary leave the packet fields alone |
| OutputParser.RttUntouched | src/PingOutputParser.cpp:78-84 | lines without a round-trip summary leave the round-trip fields alone |
| OutputParser.LastPacketLine | src/PingOutputParser.cpp:78-84 | the last line with a packet summary alone decides the packet fields |
| OutputParser.LastRttLine | src/PingOutputParser.cpp:78-84 | the last line with a round-trip summary alone decides the round-trip fields |
| OutputParser.UnixPacketsWin | src/PingOutputParser.cpp:80-82 | on one line, a Unix packet match overrides a Windows one |
| OutputParser.UnixRttWins | src/PingOutputParser.cpp:81-83 | on one line, a Unix round-trip match overrides a Windows one |
| OutputParser.NothingMatches | src/PingOutputParser.cpp:72-96 | output with no summary on any line or in the whole text yields the defaults: both flags false, every number -1 |
| OutputParser.CountRepliesInChunk | src/PingOutputParser.cpp:98-115 | the loop returns the number of reply lines, between 0 and the number of lines |
| OutputParser.CountWhereAll | src/PingOutputParser.cpp:109-113 | the count equals the line count if and only if every line qualifies |
| OutputParser.CountWhereNone | src/PingOutputParser.cpp:109-113 | the count is 0 if and only if no line qualifies |
| OutputParser.ReplyChunk | src/PingOutputParser.cpp:98-115 | a chunk of n reply lines joined by `\n` or `\r\n` counts n |
| OutputParser.NoReplyChunk | src/PingOutputParser.cpp:98-115 | a chunk without reply lines counts 0 |
| Hosts.SplitHosts | src/PingToolWindow.cpp:165-181 | every token is non-empty and free of blanks, line breaks, `,` and `;` |
| Hosts.SplitCons | src/PingToolWindow.cpp:165-181 | a host followed by separators comes off the front of the list |
| Hosts.SplitOfJoin | src/PingToolWindow.cpp:165-181 | splitting hosts joined by any separator run gives back the same hosts in order, duplicates kept |
| Hosts.MixedSeparators | src/PingToolWindow.cpp:168-172 | commas, semicolons, blanks and CR LF all separate, and a repeated host is kept |
| Session.PercentBounds | src/PingToolWindow.cpp:431-433 | the determinate value lies in 0..100; it is 100 exactly when every expected reply has been seen; it is the floor of done*100/total |
| Session.PercentMonotone | src/PingToolWindow.cpp:431-433 | more replies never give a smaller percentage |
| Session.InitialValid | src/PingToolWindow.cpp:119-130 | the freshly built window satisfies the invariant |
| Session.UpdateProgressValid | src/PingToolWindow.cpp:420-435 | any progress update keeps the bar within 0..100; an update short of the end keeps the whole invariant |
| Session.StartCommandValid | src/PingToolWindow.cpp:201-228 | a launch, failed or not, keeps the invariant |
| Session.StartNextHostValid | src/PingToolWindow.cpp:245-267 | starting the next host keeps the invariant |
| Session.PingClickedValid | src/PingToolWindow.cpp:230-243 | a ping request keeps the invariant |
| Session.TracerouteClickedValid | src/PingToolWindow.cpp:288-304 | a traceroute request keeps the invariant |
| Session.ReadyReadValid | src/PingToolWindow.cpp:408-418 | a chunk keeps the invariant |
| Session.FinishedValid | src/PingToolWindow.cpp:469-486 | an exit keeps the invariant |
| Session.StopClickedValid | src/PingToolWindow.cpp:269-286 | the corrected Stop keeps the invariant |
| Session.StopClickedAsWrittenValid | src/PingToolWindow.cpp:269-286 | Stop as written keeps the invariant too, whatever the exit handler starts inside the wait |
| Session.StopClickedAsWritten | src/PingToolWindow.cpp:269-286 | Stop as written: with nothing running only the controls reset; otherwise the queue ends empty, the status is "Stopped" and the controls idle; without an exit in the wait the process still runs; with one and an empty queue the output is reported; with one and hosts left the next host is pinged and runs if it started |
| Session.ProcErrorValid | src/PingToolWindow.cpp:488-494 | a process error keeps the invariant |
| Session.RequestsIgnoredWhileRunning | src/PingToolWindow.cpp:232-233 | while a process runs, ping and traceroute requests change nothing |
| Session.PingRequest | src/PingToolWindow.cpp:230-267 | an empty host list changes only the (now empty) queue. Otherwise: the first host is pinged; the rest wait in order; the expected count is max(0, count); output and replies are reset; the start outcome decides running versus "Failed to start process" |
| Session.TracerouteRequest | src/PingToolWindow.cpp:288-304 | the trimmed host is traced; the queue is emptied; no reply count is expected; output and replies are reset; the start outcome decides running, the controls and the status |
| Session.ReadyReadAccumulates | src/PingToolWindow.cpp:408-418 | the output grows by the chunk; replies grow by the chunk's reply count only when a count is expected; queue, process, status and command stay |
| Session.ProgressNeverFalls | src/PingToolWindow.cpp:420-435 | during a counted run the bar never moves back, and it reads 100 exactly when the replies cover the expected count |
| Session.ProgressOnUpdate | src/PingToolWindow.cpp:420-435 | indeterminate mode steps by 7 modulo 101; a finished counted run reads 100; the exit handler then leaves the bar at 0 and the controls idle |
| Session.FinishedAdvances | src/PingToolWindow.cpp:469-486 | with an empty queue: statistics of the whole output, "Done", not running. Otherwise: the next queued host is pinged; the queue loses exactly that host; the expected count is max(0, count); output and replies are reset; the start outcome decides running, the controls and the status |
| Session.StartBlanksLabels | src/PingToolWindow.cpp:222-225 | a successful start shows `-` for both statistics |
| Session.LastExitShowsStatistics | src/PingToolWindow.cpp:474 | after the last exit the labels show the parse of that run's whole output |
| Session.SilentRunShowsDashes | src/PingToolWindow.cpp:437-467 | a run whose output has no summary ends with both labels at `-` |
| Session.ReadyReadCountsReplies | src/PingToolWindow.cpp:413-414 | a chunk of n reply lines advances a counted run's replies by exactly n |
| Session.ProcErrorKeepsQueue | src/PingToolWindow.cpp:488-494 | a process error leaves the queue, the process and the command, and shows "Process error" with idle controls |
| Session.QueueDrainsInOrder | src/PingToolWindow.cpp:477-481 | after n+1 exits the command pings the n-th queued host, and the hosts after it still wait |
| Session.QueueDrainsToDone | src/PingToolWindow.cpp:477-485 | one exit more than there are queued hosts ends the batch as "Done" with nothing running |
| Session.HostsPingedInOrder | src/PingToolWindow.cpp:235-267 | a multi-host request pings every typed host in order, duplicates included, and ends "Done" |
| Session.StopWhenIdle | src/PingToolWindow.cpp:271-275 | Stop with nothing running only resets the controls; the queue is kept |
| Session.StopHalts | src/PingToolWindow.cpp:269-286 | Stop while running empties the queue, starts nothing, shows "Stopped" with idle controls, and reports the output when the process exited inside the wait |
| Session.EmptyQueueStartsNothing | src/PingToolWindow.cpp:477-485 | with an empty queue the exit handler only collects and shows "Done", whatever the options |
| Session.StopAsWrittenStartsNextHost | src/PingToolWindow.cpp:278-285 | as written, Stop with hosts left launches the next host inside the wait, yet shows "Stopped" with idle controls, so new requests are ignored |
| Session.StopAsWrittenContinuous | src/PingToolWindow.cpp:261-263 | in continuous mode that stray ping has no count: Windows `-t`, no POSIX `-c` |
| Session.StopClearsFirst | src/PingToolWindow.cpp:278-282 | with the queue cleared before the kill, the same situation ends with nothing running |
| Session.FailedStartLaunchesNothing | src/PingToolWindow.cpp:214-220 | a failed start leaves nothing running with "Failed to start process"; Stop in either order and a process error keep it down with the same command, so only a new request launches again |
| Runner.ProbeRunner.constructor | src/PingToolWindow.cpp:119-130 | the window starts idle with an empty queue, bar 0 and status "Idle", satisfying the invariant |
| Runner.ProbeRunner.EditOptions | src/PingToolWindow.cpp:256-261 | editing the options panel changes no runner state |
| Runner.ProbeRunner.SetRunning | src/PingToolWindow.cpp:183-192 | controls follow the flag; the bar is reset to 0 when idle |
| Runner.ProbeRunner.UpdateProgress | src/PingToolWindow.cpp:420-435 | the fields are updated as `Session.UpdateProgress` |
| Runner.ProbeRunner.StartCommand | src/PingToolWindow.cpp:201-228 | the fields are updated as `Session.StartCommand` |
| Runner.ProbeRunner.StartNextHostIfAny | src/PingToolWindow.cpp:245-267 | the fields are updated as `Session.StartNextHostIfAny` with the current options |
| Runner.ProbeRunner.Collect | src/PingToolWindow.cpp:474-475 | the fields are updated as `Session.Collect` |
| Runner.ProbeRunner.PingClicked | src/PingToolWindow.cpp:230-243 | the fields are updated as `Session.PingClicked`, keeping the invariant |
| Runner.ProbeRunner.TracerouteClicked | src/PingToolWindow.cpp:288-304 | the fields are updated as `Session.TracerouteClicked`, keeping the invariant |
| Runner.ProbeRunner.ReadyRead | src/PingToolWindow.cpp:408-418 | output arrives only from a running process; the fields are updated as `Session.ReadyRead`, keeping the invariant |
| Runner.ProbeRunner.Finished | src/PingToolWindow.cpp:469-486 | an exit arrives only from a running process; the fields are updated as `Session.Finished`, keeping the invariant |
| Runner.ProbeRunner.StopClicked | src/PingToolWindow.cpp:269-286 | the fields are updated as the corrected `Session.StopClicked`, keeping the invariant |
| Runner.ProbeRunner.StopClickedAsWritten | src/PingToolWindow.cpp:269-286 | the fields are updated as `Session.StopClickedAsWritten`, in the source's order, keeping the invariant |
| Runner.ProbeRunner.ProcError | src/PingToolWindow.cpp:488-494 | the fields are updated as `Session.ProcError`, keeping the invariant |
| Runner.ProbeRunner.Statistics | src/PingToolWindow.cpp:437-439 | the statistics on display are the parse of the last reported output, or all unknown |

## Left out

- Widget construction and display are not modelled: buttons, spin boxes, message boxes, the output pane (`appendOutput`), the timestamps, the command header lines and the text layout of the statistics labels. The window keeps the reported output, and `Session.Shown` is the statistics the labels present.
- DNS lookup, the TCP connect test, and Clear/Save/Copy are not modelled. They are asynchronous network, file and clipboard operations outside the probe pipeline.
- `QProcess` is not modelled. Starting, `waitForStarted`/`waitForFinished` timeouts, `kill`, `readAll` and local 8-bit decoding become event arguments: whether the start succeeded, the decoded chunk, and whether the exit happens inside Stop's wait.
- A process that starts after the 1.5 s start timeout has already been reported as failed is not modelled.
- `errorOccurred` signals emitted from inside a start or a kill are not modelled. Each is a separate `ProcError` event that the caller may deliver.
- The Starting state of `QProcess` is folded into the start outcome. A request is ignored whenever the process is not `NotRunning`.
- `Session.UpdateProgress`: it does not model QProgressBar ignoring values outside its range. The invariant proves the values always stay within 0..100.
- `Session.Percent`: `done * 100` is unbounded, so 32-bit overflow for counts above about 21 million is not modelled. The count spin box stops at 1000 (src/PingToolWindow.cpp:68).
- `Text.ToInt`: `QString::toInt` overflow returning 0 on very long digit runs is not modelled. Digit captures are naturals.
- `Text.ToReal`: `toDouble` is read as exact decimal arithmetic. IEEE rounding is not modelled.
- `CommandBuilder.IntervalText`: the options carry the interval in whole milliseconds instead of the source's `double` seconds. The `-i` text is therefore exact thousandths, which is what `'f', 3` formatting prints.
- Regular expressions are not modelled in general, and neither is Unicode `\s` or `QString::trimmed` beyond ASCII whitespace. Only the seven fixed patterns are written out.
- `Patterns.Keyword`: Qt's case-insensitive matching folds by Unicode rules, so `ſ` (U+017F) matches `s` and `K` (U+212A) matches `k`. The model folds only the ASCII letters, so it rejects such spellings, which the source accepts.
- The compile-time platform detection is not modelled. The unused macOS check is left out, and the platform is a parameter.

## Findings

| source | as written | input that shows it | evidently intended | confidence | as-written member | corrected member |
|---|---|---|---|---|---|---|
| src/PingToolWindow.cpp:278-282 | Stop kills the process and waits for it before clearing the host queue; the exit handler runs inside the wait and starts the next queued host | a multi-host ping with hosts still queued, where Stop is pressed and the killed process exits within the wait | Stop ends the whole batch: no further host starts and nothing is left running | not executed | Session.StopAsWrittenStartsNextHost | Session.StopHalts |
