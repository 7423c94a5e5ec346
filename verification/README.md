# rusty-sys-info in Dafny

A model of the core of `rusty-sys-info`, a terminal dashboard for Linux
resource use. Pollers read `/proc/stat`, `/proc/meminfo`, `/proc/diskstats`
and `/proc/net/sockstat` (and query `nvidia-smi`) and send snapshots over a
channel. A single render loop files each snapshot into the slot of its kind
and redraws a five-panel screen until `q` is pressed.

The model covers:

- **The `/proc` readers** (`src/sys_stats/*.rs`).
  - Tokenising a line by splitting on single spaces and dropping the empty
    pieces.
  - `parse::<u64>()` with its three error kinds.
  - The field positions each reader takes, and the per-core CPU
    utilization.
  - The line filters and scan loops that build a snapshot. The loops are
    `method`s proved against recursive specification functions.
  - Every `?` and every indexing panic is an explicit error outcome.
- **The first versions of three readers** (`src/cpu.rs`, `src/socket.rs`,
  `src/memory.rs`). They split on single spaces and keep the empty pieces.
  The model proves where they agree with the newer readers and where they
  break.
- **The dashboard state** (`src/ui/ui_measurements.rs`).
  - A `class` with the five slots and their defaults.
  - The downcast dispatch of `draw_ui`, which overwrites exactly one slot.
- **The render loop** (`src/ui/ui_handler.rs`).
  - `handle_events` as a pure decision.
  - `draw_ui` over a `Receiver` class whose `try_recv` takes at most one
    snapshot.
  - `create_ui`, run against a finite script of what the terminal and
    keyboard return. It yields the outcome, the number of passes, the trace
    of terminal calls, the snapshots taken off the channel and the slots as
    the passes leave them. The frames of the individual passes are not
    collected.

Modules:

- `Wrappers`: `Option`, `Result`.
- `Text`: splitting, tokens, `contains`.
- `Decimal`: `u64`, parsing and printing.
- `Fields`: indexed and parsed fields, read errors.
- `Scans`: the two loop shapes the readers share.
- `SysStatsCpu`, `SysStatsMemory`, `SysStatsDisk`, `SysStatsSocket`,
  `NvidiaGpu`: the readers and snapshot types.
- `LegacyCpu`, `LegacySocket`, `LegacyMemory`: the older readers.
- `UiMeasurements`, `UiHandler`: the front end.

Two behaviours of the code shape the front end's model:

- The dashboard is rendered only in passes where `try_recv` returned a
  snapshot (src/ui/ui_handler.rs:61). In a pass with an empty channel the
  closure renders no panel, so `terminal.draw` flushes an empty frame.
- The terminal is restored only after a quit. An error from drawing or
  from the keyboard returns through `?` before `disable_raw_mode` runs
  (src/ui/ui_handler.rs:36-41). This is listed under Findings, and
  `UiHandler.CreateUiRestoring` models the loop that restores on every
  exit.

## Model

| member | source | states |
|---|---|---|
| Text.SplitOn | src/cpu.rs:113 | `split(" ")`: always at least one piece, and no piece contains the separator |
| Text.JoinSplitOn | src/cpu.rs:113 | joining the pieces of a split with the separator gives back the line |
| Text.SplitOnJoin | src/cpu.rs:113 | splitting a join of separator-free pieces gives back the pieces |
| Text.Tokens | src/sys_stats/disk.rs:135-141 | split then filter out `""`: every token is non-empty and space-free |
| Text.TokensInLineOrder | src/sys_stats/disk.rs:135-141 | the tokens, concatenated, are the line with its spaces removed: nothing is lost or reordered |
| Text.TokensAround | src/sys_stats/disk.rs:135-141 | tokenising `a + " " + b` gives the tokens of `a` followed by those of `b` |
| Text.RunsOfSpacesCollapse | src/sys_stats/disk.rs:135-141 | a double space separates tokens exactly as a single space does |
| Text.TokensOfJoin | src/sys_stats/disk.rs:135-141 | tokenising a single-spaced join of tokens gives back those tokens |
| Text.ContainsAt | src/sys_stats/disk.rs:121 | `contains`: true exactly when the pattern occurs at some position of the string |
| Text.TokensOfSingleSpaced | src/sys_stats/cpu.rs:127-133 | on a line with no empty piece, the filtered split equals the raw split |
| Decimal.ParseU64 | src/sys_stats/disk.rs:145-147 | `parse::<u64>()` succeeds exactly on an optional `+` and digits worth at most 2^64-1, returning their value; it gives `Empty` on `""` and `PosOverflow` on too large a number |
| Decimal.AccumulateSpec | src/sys_stats/disk.rs:145-147 | the digit loop succeeds exactly when every character is a digit and the value read so far, shifted past the remaining digits, fits in 64 bits; it then returns that value; on all digits too large it fails with `PosOverflow`, and on a non-digit reached before any overflow with `InvalidDigit` |
| Decimal.ToDecimal | src/sys_stats/memory.rs:45 | `{}` of a number: non-empty digits whose value is the number, with no leading zero except in `"0"` itself |
| Decimal.ParseToDecimal | src/sys_stats/memory.rs:45 | parsing the printed form of any `u64` gives back that `u64` |
| Fields.Field | src/sys_stats/disk.rs:143-144 | `v[i]`: the element when `i < len`, else the out-of-bounds panic with index and length |
| Fields.ParseField | src/sys_stats/disk.rs:145-147 | `v[i].parse::<u64>()?`: Ok exactly when `i` is in range and the text is a `u64`; the index is checked before the text |
| Fields.ParseFieldOfDecimal | src/sys_stats/disk.rs:145-147 | a field holding a number's printed form parses to that number |
| Scans.Select | src/sys_stats/disk.rs:120-121 | the lines a filter keeps, in file order, each from the input |
| Scans.SelectAppend | src/sys_stats/disk.rs:120-121 | filtering distributes over concatenation of line lists |
| Scans.CollectSelected | src/sys_stats/disk.rs:120-127 | the filter-and-push loop: on success one record per kept line, in order, each that line's extraction; on failure the error of the first kept line that fails, with every earlier kept line readable |
| Scans.LastHit | src/sys_stats/socket.rs:78-88 | a line of the input satisfying a test, and `None` exactly when no line does |
| Scans.LastHitIsLast | src/sys_stats/socket.rs:78-88 | the line returned is the last that satisfies the test: no line after it does |
| SysStatsDisk.SdLineAt | src/sys_stats/disk.rs:121 | a line is read as a disk exactly when `" sd"` occurs at some position of it |
| SysStatsDisk.ExtractDiskStatistics | src/sys_stats/disk.rs:134-158 | Ok exactly with at least 11 tokens and tokens 3, 7, 10 being `u64`s; then name token 2, version `t0.t1`, counters from tokens 3, 7, 10; under 3 tokens the index-2 panic; a bad token 3 gives its parse error |
| SysStatsDisk.DiskLineRoundTrip | src/sys_stats/disk.rs:143-147 | a single-spaced device line reads back as name, `major.minor` and iostats fields 1, 5 and 8 |
| SysStatsDisk.DiskSpacingIrrelevant | src/sys_stats/disk.rs:135-141 | runs of spaces do not change the record read from a line |
| SysStatsDisk.DiskTestLine | src/sys_stats/disk.rs:165-177 | the unit test's device 8:0 `sda` with counters 157698, 789012, 0 reads back as `Sd("sda", "8.0", 157698, 789012, 0)` |
| SysStatsDisk.DiskInProgressMisread | src/sys_stats/disk.rs:147 | on any line where iostats fields 8 and 9 differ, the code's "I/Os in progress" is field 8, not the corrected field 9 |
| SysStatsDisk.ExtractDiskStatisticsCorrected | src/sys_stats/disk.rs:76 | the reader with "I/Os in progress" taken from token 11, as the iostats layout has it |
| SysStatsDisk.DiskLineRoundTripCorrected | src/sys_stats/disk.rs:76 | the corrected reader returns iostats field 9 as the in-progress count |
| SysStatsDisk.DiskUtilityMeas | src/sys_stats/disk.rs:113-132 | one record per line containing " sd", in file order, or the first such line's error |
| SysStatsCpu.Utilization | src/sys_stats/cpu.rs:160-163 | NaN exactly when user + system + idle is 0; otherwise value × total = (user + system) × 100 |
| SysStatsCpu.UtilizationIsPercentage | src/sys_stats/cpu.rs:160-163 | a defined utilization lies between 0 and 100 |
| SysStatsCpu.GetCpuTimes | src/sys_stats/cpu.rs:142-158 | Ok exactly with at least 5 tokens and tokens 1, 3, 4 being `u64`s; id token 0, user/system/idle tokens 1/3/4, utilization 0; empty input gives the index-0 panic; a bad token 1 gives its parse error |
| SysStatsCpu.ComputeCpuUtilization | src/sys_stats/cpu.rs:160-163 | changes the utilization only, to the busy share of the record's own times |
| SysStatsCpu.ExtractCpuUtilization | src/sys_stats/cpu.rs:126-138 | fails exactly when reading the times fails, with that error; otherwise the times with their utilization filled in |
| SysStatsCpu.CpuLineRoundTrip | src/sys_stats/cpu.rs:142-147 | a single-spaced core line reads back as its id, user, system and idle, whatever nice and later fields hold |
| SysStatsCpu.CpuSpacingIrrelevant | src/sys_stats/cpu.rs:127-133 | runs of spaces do not change the record read from a line |
| SysStatsCpu.CpuTestLine | src/sys_stats/cpu.rs:178-191 | the unit test's times 4705/1234/5678 give utilization 593900/11617, within 0.001 of 51.1233 |
| SysStatsCpu.PerCoreLineAt | src/sys_stats/cpu.rs:105 | a line is read as a core exactly when `"cpu"` occurs in it and `"cpu "` occurs nowhere in it |
| SysStatsCpu.AggregateLineSkipped | src/sys_stats/cpu.rs:105 | a line starting `cpu ` never passes the per-core filter |
| SysStatsCpu.CpuUsageMeas | src/sys_stats/cpu.rs:98-116 | one record per per-core line, in file order, or the first such line's error |
| SysStatsSocket.ExtractSocketStat | src/sys_stats/socket.rs:94-103 | Ok exactly with at least 3 tokens and token 2 a `u64`, and then its value; fewer tokens give the index-2 panic |
| SysStatsSocket.SocketLineRoundTrip | src/sys_stats/socket.rs:94-103 | a single-spaced `PROTO: inuse N ...` line reads back as N |
| SysStatsSocket.SocketSpacingIrrelevant | src/sys_stats/socket.rs:94-103 | runs of spaces do not change the count read from a line |
| SysStatsSocket.SockstatLineAt | src/sys_stats/socket.rs:79-86 | each of the three checks fires exactly when its header, `TCP: inuse`, `UDP: inuse` or `UDPLITE: inuse`, occurs at some position of the line |
| SysStatsSocket.SockstatErrorSticks | src/sys_stats/socket.rs:78-88 | after the first failing count the later lines do not matter |
| SysStatsSocket.SockstatOkIff | src/sys_stats/socket.rs:78-88 | the read succeeds exactly when every TCP, UDP or UDPLITE line has a readable count |
| SysStatsSocket.SockstatLastWins | src/sys_stats/socket.rs:74-90 | each counter is the count on the last line naming its protocol, or 0 when there is none |
| SysStatsSocket.ScanSockstat | src/sys_stats/socket.rs:74-91 | the three-`if` loop computes the specification `Sockstat` of the lines |
| SysStatsSocket.NetSocketRead | src/sys_stats/socket.rs:69-92 | `net_socket_read` is that loop with the filtered-split extractor |
| SysStatsMemory.ExtractMemConsumption | src/sys_stats/memory.rs:86-95 | Ok exactly with at least 2 tokens and the second-to-last a `u64`, and then its value; under 2 tokens the `len() - 2` underflow |
| SysStatsMemory.MemLineRoundTrip | src/sys_stats/memory.rs:86-95 | a single-spaced `Key: N unit` line reads back as N |
| SysStatsMemory.MemSpacingIrrelevant | src/sys_stats/memory.rs:86-95 | runs of spaces do not change the size read from a line |
| SysStatsMemory.MeminfoLineAt | src/sys_stats/memory.rs:72-78 | the total is read where `MemTotal:` occurs; the free size where `MemFree:` occurs and `MemTotal:` nowhere; the available size where `MemAvailable:` occurs and neither of the others does |
| SysStatsMemory.MeminfoStepChangesOne | src/sys_stats/memory.rs:72-78 | a line changes at most one size: the one of the first branch that matches |
| SysStatsMemory.MeminfoErrorSticks | src/sys_stats/memory.rs:71-79 | after the first failing size the later lines do not matter |
| SysStatsMemory.MeminfoOkIff | src/sys_stats/memory.rs:71-79 | the read succeeds exactly when every line taken by a branch has a readable size |
| SysStatsMemory.MeminfoLastWins | src/sys_stats/memory.rs:64-81 | each size is the one on the last line its branch took, or 0 when there is none |
| SysStatsMemory.ScanMeminfo | src/sys_stats/memory.rs:64-83 | the `if` / `else if` loop computes the specification `Meminfo` of the lines |
| SysStatsMemory.MemoryConsumptionMeas | src/sys_stats/memory.rs:63-84 | `memory_consumption_meas` is that loop with the filtered-split extractor |
| SysStatsMemory.DisplayLines | src/sys_stats/memory.rs:41-51 | `Display` of a memory snapshot is exactly three lines, split at its newlines: `mem total:`, `mem free:` and `mem avail:`, each a tab, the size in decimal and ` kB` |
| LegacyCpu.ExtractCpuUtilization | src/cpu.rs:112-118 | the same as the newer reader but over the raw split pieces |
| LegacyCpu.DoubleSpaceAfterIdFails | src/cpu.rs:113 | two spaces after the id make the old reader fail with `Empty`, while the newer reader reads the line as if single-spaced |
| LegacyCpu.AgreesOnSingleSpaced | src/cpu.rs:112-126 | with no empty raw piece, both readers return the same result |
| LegacyCpu.CpuUsageMeas | src/cpu.rs:84-102 | one record per per-core line by the old extractor, or the first such line's error |
| LegacySocket.ExtractSocketStat | src/socket.rs:82-85 | Ok exactly when raw piece 2 exists and is a `u64`, and then its value |
| LegacySocket.DoubleSpaceBeforeCountFails | src/socket.rs:83-84 | two spaces before the count make the old reader fail with `Empty`, while the newer reader reads the line as if single-spaced |
| LegacySocket.AgreesOnSingleSpaced | src/socket.rs:82-85 | with no empty raw piece, both readers return the same count |
| LegacySocket.NetSocketRead | src/socket.rs:57-80 | the three-`if` loop with the raw-split extractor |
| LegacyMemory.ExtractMemConsumption | src/memory.rs:60-61 | Ok exactly when raw piece `len - 2` exists and is a `u64`; under 2 raw pieces the `len() - 2` underflow |
| LegacyMemory.ReadsAlignedLine | src/memory.rs:60-67 | with the number and unit one space apart, both readers return the number, however the key is padded |
| LegacyMemory.DoubleSpaceBeforeUnitFails | src/memory.rs:60-67 | two spaces before the unit make the old reader fail with `Empty`, while the newer reader reads the line as if single-spaced |
| LegacyMemory.AgreesOnSingleSpaced | src/memory.rs:60-67 | with no empty raw piece, both readers return the same size |
| LegacyMemory.MemoryConsumptionMeas | src/memory.rs:50-74 | the `if` / `else if` loop with the raw-split extractor |
| UiMeasurements.SlotValue | src/ui/ui_measurements.rs:15-33 | what a slot holds, as a snapshot of that slot's kind |
| UiMeasurements.ApplySlots | src/ui/ui_handler.rs:79-89 | a snapshot replaces its own kind's slot whole and leaves the other four; a snapshot of any other kind changes nothing |
| UiMeasurements.LastOfKind | src/ui/ui_handler.rs:79-89 | a snapshot of the kind from the run, and `None` exactly when the run has none |
| UiMeasurements.LastOfKindIsLast | src/ui/ui_handler.rs:79-89 | the snapshot returned is the last of its kind: no snapshot after it has that kind |
| UiMeasurements.LastWriteWins | src/ui/ui_handler.rs:79-89 | after a run of dispatches, each slot is the last snapshot of its kind, or its earlier value if none came |
| UiMeasurements.UIMeasurements.constructor | src/ui/ui_measurements.rs:36-52 | no CPU records, memory and socket counts 0, no disks, an unnamed GPU with every reading 0 |
| UiMeasurements.UIMeasurements.Dispatch | src/ui/ui_handler.rs:79-89 | the slots afterwards are `Apply` of the slots before |
| UiHandler.HandleEvents | src/ui/ui_handler.rs:45-54 | `Ok(true)` exactly for a key press of `q`; poll and read errors pass through, and nothing else fails |
| UiHandler.EventCallsShape | src/ui/ui_handler.rs:45-54 | `poll` is called first, `read` follows exactly when `poll` reported an event, and no other terminal call is made |
| UiHandler.Receiver.Deliver | src/sys_stats/sys_stats_handler.rs:20-22 | a poller's send puts its snapshots at the back of the queue, in order, behind what is pending |
| UiHandler.Receiver.TryRecv | src/ui/ui_handler.rs:61 | takes the oldest pending snapshot, or nothing when none is pending, without waiting |
| UiHandler.DrawUi | src/ui/ui_handler.rs:56-137 | with no snapshot pending nothing changes and nothing is rendered; otherwise exactly one snapshot is taken and filed, and the panels show the new slots |
| UiHandler.PassOutcomes | src/ui/ui_handler.rs:36-37 | a pass quits exactly when the draw succeeds and `q` is pressed; it fails exactly when the draw, `poll` or `read` fails, with that call's error |
| UiHandler.PassCallsShape | src/ui/ui_handler.rs:36-37 | a pass starts with the draw, polls exactly when the draw succeeded, and never restores the terminal |
| UiHandler.PassesNoRestore | src/ui/ui_handler.rs:35-38 | no pass of the loop calls `disable_raw_mode` or `LeaveAlternateScreen` |
| UiHandler.LoopFromStops | src/ui/ui_handler.rs:35-38 | from any pass on, the loop stops at the first pass that does not continue, with that pass's quit or error, and runs out of passes only when all of them continue |
| UiHandler.LoopRunStops | src/ui/ui_handler.rs:34-38 | the loop is still running exactly when every pass continues; it quits exactly when some pass quits after passes that all continued; a failure is the error of the first pass that did not continue |
| UiHandler.PopConserves | src/ui/ui_handler.rs:61 | a `try_recv` loses and duplicates nothing, and takes the oldest snapshot when there is one |
| UiHandler.TakenConserves | src/ui/ui_handler.rs:35-38 | after any number of passes, what was taken followed by what is still queued is exactly what was queued followed by what was sent; each pass takes at most one snapshot |
| UiHandler.TakenPrefix | src/ui/ui_handler.rs:35-38 | the snapshots taken are a prefix of everything queued and sent: they are shown in the order they were sent, none skipped |
| UiHandler.DrawFrame | src/ui/ui_handler.rs:36 | the draw's closure takes the oldest pending snapshot, if any; the slots are always the dispatch of every snapshot taken so far; it renders exactly when a snapshot was pending, and then the new slots |
| UiHandler.DrawAndPoll | src/ui/ui_handler.rs:35-38 | one loop body: it returns the pass's verdict, and the trace, the channel and the slots move on from `i` passes to `i + 1` |
| UiHandler.RunPass | src/ui/ui_handler.rs:35-38 | after a pass that continues, the loop's verdict is the later passes'; a pass that quits or fails is the verdict of the whole loop |
| UiHandler.DrawUntilQuit | src/ui/ui_handler.rs:32-38 | the loop ends as `LoopRun` says, after that many passes; the trace is those passes' calls; the channel is as they leave it; the slots hold the dispatch of what was taken, a prefix of everything sent |
| UiHandler.SetupInOrder | src/ui/ui_handler.rs:28-30 | the trace starts with `enable_raw_mode`; the first set-up call that fails returns its own error and nothing after it runs; both versions agree when the set-up fails |
| UiHandler.CreateUiLoop | src/ui/ui_handler.rs:34-42 | once set up, it is still running exactly when every pass continued; otherwise the number of passes is one past the first pass that does not continue, and that pass quits or fails; a failing pass returns its own error with its calls last in the trace; a quit is followed by the restore calls |
| UiHandler.CreateUiRestore | src/ui/ui_handler.rs:40-42 | raw mode is disabled exactly when the set-up succeeded and some pass quit; `Ok(())` comes back exactly when, besides, both restore calls succeed |
| UiHandler.FirstDrawFailureSkipsRestore | src/ui/ui_handler.rs:36-41 | when the first draw fails, `create_ui` returns the draw's error with raw mode still on; the restoring version restores first |
| UiHandler.CreateUiRestoringLoop | src/ui/ui_handler.rs:34-42 | the corrected loop: as `CreateUiLoop`, the same first pass that does not continue ends it, except that a failing pass is followed by the restore too, and its error is returned only when the restore succeeds |
| UiHandler.CreateUiRestoringRestores | src/ui/ui_handler.rs:40-42 | the corrected loop: once set up, every return goes through `disable_raw_mode`; a failed set-up returns an error without restoring; `Ok(())` exactly after a quit with both restore calls succeeding |
| UiHandler.CreateUi | src/ui/ui_handler.rs:27-43 | outcome, number of passes and trace are `CreateUiRun`'s, whose meaning the lemmas above state; the channel and the slots are as those passes leave them |
| UiHandler.CreateUiRestoring | src/ui/ui_handler.rs:27-43 | the same with `CreateUiRestoringRun`, the loop that restores the terminal on every exit once it is set up |

## Left out

- File and process I/O: each reader's file contents are its `lines` parameter. Opening or reading a file is not modelled, and neither are the `nvidia-smi` query and its parsing.
- The pollers, the tokio runtime and the channel's capacity and back-pressure. The channel is a `Receiver` whose queue the script fills between passes.
- Ratatui layout, widgets, colours and panel titles. `DrawUi` reports the five slots it renders, not their placement.
- The `Display` and `Debug` text of the CPU, disk, socket and GPU snapshots. Only the memory text is modelled.
- The field accessors and the `new` constructors. They are the datatypes' own fields and constructors, so they need no members of their own. `UIMeasurements`' accessors are its fields.
- The `print_info` and `as_any` methods of `Measurements`. The downcast becomes the `Measurement` datatype's constructors.
- The legacy `CpuTime` and `SockStat` types are not modelled separately. They have the same fields as the `sys_stats` types, which the legacy readers reuse.
- SysStatsCpu.Utilization: computed in exact real arithmetic. The rounding of `as f64` and of the f64 operations is not modelled, and neither is a `u64` overflow of user + system + idle (a panic in debug builds).
- SysStatsCpu.ComputeCpuUtilization: the source mutates the record through `&mut`. It is modelled as returning the updated value, which is equivalent under Rust's unique borrow.
- UiHandler.CreateUi: the loop runs until a quit with no bound. Here it runs over the finite `Env.ticks`, and `StillRunning` reports a script that ends first.
- UiHandler.DrawAndPoll: the frame a pass renders is dropped, and `CreateUi` returns no sequence of frames. What a single draw renders is stated by `DrawFrame`. The empty frame of a pass without a snapshot is `None` there, not a blank screen.
- UiHandler.DrawFrame: `draw_ui` runs in every pass, whether or not the draw then succeeds. A draw that fails before calling its closure would leave the snapshot queued instead; nothing can observe the difference, since `create_ui` then returns.
- Panics (out-of-range index, `len() - 2` underflow) are `ReadError` values rather than aborts. `?` on a boxed error is a `Result` of `ReadError`.
- SysStatsSocket: the unit test at src/sys_stats/socket.rs:109-118 has no lemma of its own for the literal line. `SocketLineRoundTrip` with `SocketSpacingIrrelevant` covers it: count 8 at token 2, whatever the spacing.
- SysStatsMemory: the unit test at src/sys_stats/memory.rs:101-110 is covered the same way, by `MemLineRoundTrip` and `MemSpacingIrrelevant`.
- SysStatsDisk.DiskTestLine and SysStatsCpu.CpuTestLine: each states the unit test for the single-spaced form of the line, with the remaining fields left free. The spacing lemmas carry it over to the test's padded line.

## Findings

| source | as written | input that shows it | evidently intended | confidence | as-written member | corrected member |
|---|---|---|---|---|---|---|
| src/sys_stats/disk.rs:147 | "I/Os in progress" is read from token 10, which is iostats field 8 ("time spent writing") | `8 0 sda 1 0 0 0 2 0 0 30 4 40 44` gives 30, while 4 I/Os are in progress | token 11, iostats field 9, as the doc comment at src/sys_stats/disk.rs:76 says | not executed | SysStatsDisk.DiskInProgressMisread | SysStatsDisk.DiskLineRoundTripCorrected |
| src/ui/ui_handler.rs:36-41 | a draw or keyboard error returns through `?` before `disable_raw_mode` and `LeaveAlternateScreen` | terminal set up, then the first `terminal.draw` fails: the terminal stays in raw mode on the alternate screen | restore raw mode and the main screen on every exit after setup | not executed | UiHandler.FirstDrawFailureSkipsRestore | UiHandler.CreateUiRestoringRestores |
