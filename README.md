# sysrat, modelled in Dafny

sysrat is a process-execution monitor. A capture backend observes every `execve` on the machine. It is either an eBPF tracepoint program or a bpftrace/dtrace script that prints one text line per execution. A terminal front end keeps the most recent executions in a bounded window and shows them in a table. Keys move a row cursor and quit.

This project models the four parts of that pipeline that hold logic:

- **The kernel capture** (`capture.dfy`, `schema.dfy`):
  - `try_enter_execve` reads the task identity out of the helpers' 64-bit words.
  - It copies at most six arguments into zero-filled 16-byte slots. The copy stops at the first null pointer, aborts on an unreadable pointer and swallows a failed string copy.
  - It publishes the `Event` through a ring buffer that drops what it cannot reserve. The ring's size is a parameter: it holds at most its size divided by a 144-byte frame.
  - The `Event` record and its `Display` text are modelled as well.
  - The argument buffer is an `array2<byte>` filled by a `while` loop. The ring is a class whose methods reserve, commit and consume records.
- **The text backend** (`tui_main.dfy`, `legacy_main.dfy`, `feeder.dfy`, `text.dfy`):
  - `parse_line` in its six-field (tui) and four-field (older) forms. Its `Err` results and its indexing panics are modelled as values.
  - The table columns of `ref_array`.
  - The feeder loop, which sends parsed executions in order. The tui front end skips a bad line; the older one panics on it.
  - The Rust library operations these rely on, written out: `split(',')`, `str::trim` over Unicode White_Space, `u32::from_str`, `u32::to_string` and `str::from_utf8`.
- **The application** (`tui_app.dfy`, `legacy_app.dfy`, `store.dfy`, `terminal.dfy`):
  - The `App` of each front end, as a class whose methods change its fields.
  - The 50-entry FIFO window, the wrapping row cursor and the key table.
  - The column widths, computed as maxima over the window.
  - The event loop, which draws and then consumes one event per turn. Drawing the table reconciles its selection with the rows: nothing is selected on the empty window.
  - Each method is proved against a transition function on a `State` value, and the lemmas are proved about those functions.
  - The invariant every event keeps: at most 50 executions, any selection on a row (row 0 while there is none) and widths that belong to the window.
  - The eviction law: the window always holds the most recent 50 executions received, in arrival order.

Foreign code is passed in as parameters:

- the time parser, the timestamp printer, the display width, ANSI colouring and bolding, and the process service's `{:?}` text (a `TimeParser`, an `Env`);
- the kernel helpers and the traced process's memory (`Helpers`, `UserMemory`);
- the user table (`UserTable`, a `map` from uid to name).

## Model

| member | source | states |
|---|---|---|
| Text.Decimal | tui/src/main.rs:82-83 | `to_string` of an unsigned value is a non-empty string of ASCII digits with no leading zero |
| Text.ParseU32 | tui/src/main.rs:110-112 | a successful `u32` parse is below 2^32 and reads an optional `+` and then at least one digit, with no whitespace and no `-` |
| Text.ParseDecimal | tui/src/main.rs:110-112 | rendering a value and parsing it back gives the value exactly when it fits in 32 bits, and fails otherwise |
| Text.DigitsValueOfDecimal | src/main.rs:132 | the digits `to_string` prints have the value printed |
| Text.Split | tui/src/main.rs:108 | `split(',')` gives at least one piece, at most one more than the characters, and no piece holds the separator |
| Text.JoinSplit | tui/src/main.rs:108 | joining the pieces of a split with the separator gives back the original line |
| Text.SplitJoin | tui/src/main.rs:108 | splitting separator-free pieces joined with the separator gives back the pieces |
| Text.SplitCons | tui/src/main.rs:108 | a separator-free piece followed by the separator is the first piece of the split |
| Text.SplitAppend | tui/src/main.rs:108 | splitting at one separator distributes over the two sides |
| Text.SplitWhole | src/main.rs:153 | a string without the separator is one piece |
| Text.TrimStart | tui/src/main.rs:113 | the result is a suffix of the input, everything cut is whitespace, and it does not start with whitespace |
| Text.TrimEnd | tui/src/main.rs:113 | the result is a prefix of the input, everything cut is whitespace, and it does not end with whitespace |
| Text.IsWhitespace | tui/src/main.rs:113-114 | the characters `trim()` strips: the 25 code points of Unicode White_Space |
| Text.Trim | tui/src/main.rs:113-114 | `trim()` is a slice of the input with whitespace only on either side cut away, and neither end of it is whitespace |
| Text.TrimTrimmed | src/main.rs:157 | trimming a string with no surrounding whitespace changes nothing |
| Text.DecodeUtf8 | ebpf/common/src/lib.rs:27-30 | `from_utf8` succeeds with at most one character per byte, gives "" only for no bytes, and fails on a buffer that starts with a byte that cannot begin a sequence |
| Text.Lossy | ebpf/common/src/lib.rs:27-30 | `from_utf8(..).unwrap_or_default()` is never longer than the bytes, and is "" exactly when there are no bytes or they are not UTF-8 |
| Text.AsciiDecodes | ebpf/common/src/lib.rs:27-30 | an ASCII buffer, NUL bytes included, decodes as UTF-8 to one character per byte |
| Text.ForbiddenByteFails | ebpf/common/src/lib.rs:27-30 | a buffer holding anywhere a byte that never occurs in UTF-8 (C0, C1 or F5 to FF) fails to decode and prints as "" |
| Schema.SpacedEachAppend | ebpf/common/src/lib.rs:29-32 | writing each slot and a space over two runs of slots is the two texts one after the other |
| Schema.SpacedEachAt | ebpf/common/src/lib.rs:29-32 | the text of slot `i` and its space sit between the texts of the slots before and after it |
| Schema.ArgsTextAt | ebpf/common/src/lib.rs:29-32 | every slot, empty or not, contributes its own lossy text followed by exactly one space |
| Schema.InvalidSlotPrintsSpace | ebpf/common/src/lib.rs:30-31 | a slot that is not UTF-8 contributes a lone space and no error |
| Schema.AsciiArgsLayout | ebpf/common/src/lib.rs:29-32 | ASCII slots print byte for byte, trailing NULs included, at a stride of 17 characters, each ending in a space |
| Schema.Display | ebpf/common/src/lib.rs:25-35 | whatever the bytes, the text holds the pid, its punctuation and at least one space per argument slot |
| Schema.DisplayLayout | ebpf/common/src/lib.rs:25-35 | for a well-formed ASCII record the text is the 16 comm bytes, ` (`, the pid, `): `, and then all six slots in full, each followed by a space |
| Schema.InvalidCommPrintsEmpty | ebpf/common/src/lib.rs:27-28 | a comm that is not UTF-8 prints as "" in front of ` (pid): ` |
| Capture.Low32 | ebpf/ebpf-kernel/src/main.rs:56 | `as u32` keeps a value below 2^32 |
| Capture.High32 | ebpf/ebpf-kernel/src/main.rs:55-57 | `>> 32` of a 64-bit word fits in 32 bits, and high and low halves recombine to the word |
| Capture.AsU32 | ebpf/ebpf-kernel/src/main.rs:60 | casting the signed parent pid to `u32` keeps a non-negative value and adds 2^32 to a negative one |
| Capture.StrSlot | ebpf/ebpf-kernel/src/main.rs:85-87 | a zeroed 16-byte slot after a string copy holds the string, cut to 15 bytes, then zeros; a failed copy leaves it all zero |
| Capture.ProbeReadUserStr | ebpf/ebpf-kernel/src/main.rs:85-87 | the string copy changes only its own row of the argument buffer, and reports whether the address was readable |
| Capture.StopIndex | ebpf/ebpf-kernel/src/main.rs:78-84 | the loop stops at the first unreadable or null pointer, and never after `ARG_COUNT` pointers |
| Capture.CaptureEvent | ebpf/ebpf-kernel/src/main.rs:53-98 | the built event is well-formed; a failed comm read or record read gives that read's error; every error is negative |
| Capture.RingBuf.constructor | ebpf/ebpf-kernel/src/main.rs:48-50 | the ring starts empty with the declared byte size |
| Capture.RingBuf.Reserve | ebpf/ebpf-kernel/src/main.rs:110 | a reservation succeeds exactly when one more record fits, and fails at once otherwise |
| Capture.RingBuf.Commit | ebpf/ebpf-kernel/src/main.rs:111-112 | writing and submitting a reservation appends the record after the published ones |
| Capture.RingBuf.Next | ebpf/userland/src/main.rs:44-48 | the consumer takes the oldest published record, or nothing from an empty ring |
| Capture.RingCapacity | ebpf/ebpf-kernel/src/main.rs:48-50 | a ring of any byte size holds at most that size divided by the 144-byte frame, published and reserved together, and takes another record exactly while it holds fewer |
| Capture.Submit | ebpf/ebpf-kernel/src/main.rs:109-114 | `submit` appends exactly the event when there is room and leaves the ring unchanged otherwise, without retrying |
| Capture.TryEnterExecve | ebpf/ebpf-kernel/src/main.rs:53-106 | the loop over argv builds exactly the event of `CaptureEvent` and submits it, returning `Ok(0)`; on an error nothing is published and the error is returned |
| Capture.ExitCode | ebpf/ebpf-kernel/src/main.rs:42-45 | `Ok(v)` returns `v`; `Err(ret)` returns `ret as u32`, which is non-zero for a negative error |
| Capture.SysEnterExecve | ebpf/ebpf-kernel/src/main.rs:41-46 | the tracepoint returns 0 exactly when an event was built, and the ring gains that event exactly when it had room |
| Capture.StopIndexIs | ebpf/ebpf-kernel/src/main.rs:78-84 | the loop stops exactly at the first null or unreadable pointer |
| Capture.ArgvStopsAtNull | ebpf/ebpf-kernel/src/main.rs:70-84 | with `k < ARG_COUNT` good pointers and then a null one, slots `0..k-1` hold the strings and all later slots stay zero |
| Capture.ArgvFull | ebpf/ebpf-kernel/src/main.rs:78-88 | with `ARG_COUNT` good pointers every slot holds its string |
| Capture.ArgvReadsOnlyArgCountPointers | ebpf/ebpf-kernel/src/main.rs:78-79 | argv entries beyond the first `ARG_COUNT` are never read |
| Capture.StopIndexFrame | ebpf/ebpf-kernel/src/main.rs:78-79 | where the loop stops depends only on the first `ARG_COUNT` argv entries |
| Capture.PointerFaultAborts | ebpf/ebpf-kernel/src/main.rs:79 | a failed argv pointer read aborts the whole event with `-EFAULT` |
| Capture.FailedCopyIsSwallowed | ebpf/ebpf-kernel/src/main.rs:85-87 | a failed string copy does not stop the loop and leaves its slot zero |
| Capture.IdentityFields | ebpf/ebpf-kernel/src/main.rs:55-61 | pid is the high half of `pid_tgid`, uid and gid are the low and high halves of `uid_gid`, and the timestamp and comm come from their helpers |
| Capture.EnvironmentIgnored | ebpf/ebpf-kernel/src/main.rs:34-36 | `envp` is never read: the event does not depend on it |
| Store.Pushed | tui/src/app.rs:166-171 | the window stays within 50 entries; it grows by one until full and then keeps its size; it is the tail of the old window with the new execution last |
| Store.Recent | tui/src/app.rs:51-52 | the most recent 50 of a history, or all of a shorter one |
| Store.RecentOfSuffix | tui/src/app.rs:168-171 | two windows that agree on their last 50 entries stay in agreement after the same arrivals |
| Store.PushAllKeepsRecent | tui/src/app.rs:166-171 | after any arrivals the window is exactly the most recent 50 executions ever received, in arrival order |
| Store.FirstEvictedByFiftyFirst | src/app.rs:115-120 | the 51st arrival into an empty window evicts the first and keeps the other 50 in order |
| Store.NextRowAsWritten | tui/src/app.rs:175-188 | `next_row` as written: it panics exactly when a row is selected on an empty window; from a row it moves to the next one modulo the length; with nothing selected it selects row 0 |
| Store.PreviousRowAsWritten | tui/src/app.rs:190-203 | `previous_row` as written: it panics exactly when row 0 is selected on an empty window; from a row it moves to the previous one modulo the length; with nothing selected it selects row 0 |
| Store.RowMoveOnEmptyStorePanics | tui/src/app.rs:79 | reached without a draw in between, the initial selection `Some(0)` on the empty window makes both row moves panic as written |
| Store.DrawClamp | tui/src/ui.rs:104-106 | the table render leaves nothing selected while there are no rows, keeps a selection that points at a row, and moves one past the end to the last row |
| Store.DrawnRowMovesDoNotPanic | tui/src/app.rs:94-100 | after the draw that precedes every event, neither row move as written panics, and each lands on a row (row 0 while there is none) |
| Store.CursorValid | tui/src/app.rs:79 | a valid cursor selects a row, or row 0 while there is none |
| Store.NextRow | tui/src/app.rs:175-188 | moving down keeps a valid cursor valid, agrees with `next_row` wherever that does not panic, and leaves the cursor alone on an empty window |
| Store.PreviousRow | tui/src/app.rs:190-203 | moving up keeps a valid cursor valid, agrees with `previous_row` wherever that does not panic, and leaves row 0 alone on an empty window |
| Store.RowMovesAreInverse | src/app.rs:124-152 | on a non-empty window, up after down and down after up return to the same row |
| Store.MaxOr | tui/src/app.rs:215-219 | `max().unwrap_or(d)` is at least every element and equal to one of them, or `d` when there are none |
| Store.AsU16 | tui/src/app.rs:243-248 | `as u16` is below 2^16 and changes nothing that already fits |
| Store.WidthIsMaximum | src/app.rs:187-193 | when every width fits in 16 bits, the truncated maximum bounds every width and equals one of them |
| Store.ColumnWidth | tui/src/app.rs:236-240 | a column width fits in a `u16` and is the truncated default over no items |
| Store.ColumnWidthIsMaximum | tui/src/app.rs:230-234 | when every width fits, the column is as wide as every item and exactly as wide as one |
| Terminal.Action | tui/src/app.rs:120-146 | Esc or `q` quits with any modifiers; `c`/`C` quits exactly with Control alone; `j`/Down, `k`/Up, `l`/Right and `h`/Left move; Enter inspects; each in both directions |
| Terminal.ModifiersOnlyMatterForC | src/app.rs:89-99 | modifiers change the action of no key other than `c` and `C` |
| Terminal.OnlyControlCQuits | tui/src/app.rs:122-124 | a plain `c`, or `c` with Control and another modifier, is ignored |
| Feeder.Step | tui/src/main.rs:40-55 | a skipped line leaves the run alone; a panic ends it with nothing more sent; the run closes normally only if the item was a line that did not panic |
| Feeder.Feed | tui/src/main.rs:39-57 | at most one execution per line is sent, and the run closes normally only when no read failed and no parse panicked |
| Feeder.StepThen | tui/src/main.rs:39-57 | one item that does not end the feeder commutes with appending a later run |
| Feeder.FeedAppend | tui/src/main.rs:39-57 | feeding two streams in turn sends the first's executions and then the second's, in order |
| Feeder.ParsedLineSentLast | tui/src/main.rs:48-50 | a parsed line sends exactly its execution, after everything sent before it |
| Feeder.UnparsableLineSkipped | tui/src/main.rs:44-46 | with `continue`, a line that does not parse leaves no trace |
| Feeder.UnparsableLinePanics | src/main.rs:41-44 | with `panic!`, the first line that does not parse ends the thread and nothing after it is sent |
| Feeder.ReadErrorEndsFeed | tui/src/main.rs:52-54 | a read error ends the loop and nothing after it is sent |
| Feeder.Advance | tui/src/main.rs:39-57 | one turn of the loop adds the line's execution, skips it, or ends the run with what was sent so far |
| Feeder.Run | tui/src/main.rs:39-57 | the `for` loop sends and stops exactly as `Feed` says over the parsed stream |
| TuiMain.ParseLine | tui/src/main.rs:107-128 | success exactly when six fields exist and the time, uid, pid and ppid parse; field 2 is pid, 3 ppid, 4 and 5 trimmed comm and args, username the lookup of field 1; `Err` only for a bad number or time; a panic exactly when a field is missing after good earlier ones |
| TuiMain.ParseFormattedLine | tui/src/main.rs:106-128 | parsing a printed `time,uid,pid,ppid,comm,args` line gives the execution back with its uid's user name |
| TuiMain.ExtraFieldsIgnored | tui/src/main.rs:114 | text after a sixth comma is dropped |
| TuiMain.SystemdLineParses | tui/src/main.rs:134-146 | the systemd line of the unit test parses to pid 12681, ppid 3784, comm `systemd` and the whole executor command as args |
| TuiMain.RefArray | tui/src/main.rs:78-87 | six columns: timestamp, user name or "", pid and ppid as decimal text that parses back, comm, bold args |
| TuiMain.RunFeeder | tui/src/main.rs:39-57 | the tui feeder sends exactly what the skipping feed sends for the stream |
| LegacyMain.ParseLine | src/main.rs:152-164 | success exactly when four fields exist and the time, pid and ppid parse; field 1 is pid, 2 ppid, 3 trimmed command; `Err` only for a bad number or time; a panic exactly when a field is missing after good earlier ones |
| LegacyMain.ParseFormattedLine | src/main.rs:152-164 | parsing a printed `time,pid,ppid,command` line gives the execution back |
| LegacyMain.ExtraFieldsIgnored | src/main.rs:153-157 | fields after the fourth are ignored |
| LegacyMain.NetstatLineParses | src/main.rs:170-177 | the netstat line of the unit test parses to pid 3925, ppid 341 and command `/usr/sbin/netstat -na` |
| LegacyMain.PpidColor | src/main.rs:73-129 | the colour index `ppid % 50` always falls inside the 50-entry palette |
| LegacyMain.PaletteRepeats | src/main.rs:129 | parent pids 50 apart get the same colour |
| LegacyMain.RefArray | src/main.rs:126-137 | four columns: timestamp, pid as decimal text that parses back, ppid in its parent's palette colour, bold command |
| LegacyMain.RunFeeder | src/main.rs:36-55 | the older feeder sends exactly what the panicking feed sends for the stream |
| TuiApp.ConstraintLens | tui/src/app.rs:214-250 | pid and ppid are fixed at 6 and 15; over no executions the widths are 0, 1 for the user name, 0, 0 |
| TuiApp.ConstraintLensIsMaximum | tui/src/app.rs:214-250 | each computed width covers every execution in the window and equals the width of one of them |
| TuiApp.EnterAsWritten | tui/src/app.rs:130-144 | Enter as written: `get(i).unwrap()` panics when the selection has no row |
| TuiApp.EnterOnEmptyWindowPanics | tui/src/app.rs:79-133 | reached without a draw in between, Enter pressed before any execution arrives panics as written |
| TuiApp.DrawnEnterDoesNotPanic | tui/src/app.rs:94-100 | after the draw that precedes every event, Enter as written never panics and does what the guarded `Entered` does |
| TuiApp.Entered | tui/src/app.rs:130-144 | Enter agrees with the source wherever that does not panic, changes nothing but the debug line, and shows the process service's view of the selected pid and ppid |
| TuiApp.WeightAppend | tui/src/app.rs:94-100 | the pending work of two runs of events adds up |
| TuiApp.TurnLightens | tui/src/app.rs:94-100 | every turn of the loop lessens the pending work, so the loop over pending events ends |
| TuiApp.InitialInv | tui/src/app.rs:72-85 | the initial application keeps the invariant |
| TuiApp.AddedProcessKeepsInv | tui/src/app.rs:166-173 | adding an execution keeps the window bounded, any selection on a row and the widths those of the window |
| TuiApp.OnKeyFrame | tui/src/app.rs:119-149 | no key changes the window, the widths or `running` |
| TuiApp.OnKeyKeepsCursor | tui/src/app.rs:119-149 | every key keeps a selection on a row and the scroll at that row |
| TuiApp.OnKeyKeepsInv | tui/src/app.rs:119-149 | every key keeps the invariant |
| TuiApp.OnEventKeepsInv | tui/src/app.rs:102-116 | every event keeps the invariant |
| TuiApp.TurnKeepsInv | tui/src/app.rs:94-100 | a turn of the loop, drawing and then handling the next event, keeps the invariant |
| TuiApp.DrawnKeepsInv | tui/src/ui.rs:104-106 | drawing keeps the invariant, clears the selection on the empty window and leaves it alone otherwise |
| TuiApp.DrawnRowMovesAsWritten | tui/src/app.rs:94-100 | on a drawn state the guarded row moves the model makes are exactly the as-written ones, which do not panic |
| TuiApp.HandleNextKeepsInv | tui/src/app.rs:102-116 | handling the oldest pending event keeps the invariant |
| TuiApp.DrainKeepsInv | tui/src/app.rs:94-100 | the loop keeps the invariant however many events it handles |
| TuiApp.OnlyQuitStops | tui/src/app.rs:109-113 | only a `Quit` event stops the application; no key does it directly |
| TuiApp.QuitKeyOnlyEnqueues | tui/src/app.rs:121-124 | a quit key only sends `Quit` to the back of the channel, changing nothing else |
| TuiApp.LensCoversWindow | tui/src/app.rs:172 | the widths held always cover every execution in the window |
| TuiApp.QuitStopsDrain | tui/src/app.rs:94-100 | a `Quit` at the front of the channel stops the loop after one draw, leaving later events unread |
| TuiApp.Arrivals | tui/src/main.rs:48-50 | the feeder sends one `NewProcess` event per execution |
| TuiApp.TurnOnArrival | tui/src/app.rs:110 | an arriving execution is pushed into the window and the application keeps running |
| TuiApp.DrainArrivalsPushes | tui/src/app.rs:166-173 | handling a run of arrivals pushes them all, in order, and never stops the application |
| TuiApp.ArrivalsKeepRecent | tui/src/app.rs:166-173 | after arrivals the window holds exactly the most recent 50 executions received, in arrival order |
| TuiApp.App.constructor | tui/src/app.rs:72-85 | a new application is running, has no executions, selects row 0 and holds the default widths |
| TuiApp.App.Quit | tui/src/app.rs:158-160 | `quit` clears `running` and nothing else |
| TuiApp.App.PrintMsg | tui/src/app.rs:162-164 | `print_msg` replaces the debug line and nothing else |
| TuiApp.App.AddProcess | tui/src/app.rs:166-173 | popping the oldest when full and then pushing gives the bounded push, and the widths are recomputed |
| TuiApp.App.NextRow | tui/src/app.rs:175-188 | the selection and scroll move as the guarded `next_row` says |
| TuiApp.App.PreviousRow | tui/src/app.rs:190-203 | the selection and scroll move as the guarded `previous_row` says |
| TuiApp.App.ShowSelected | tui/src/app.rs:130-144 | the Enter arm sets the debug line as the guarded lookup says |
| TuiApp.App.HandleKeyEvent | tui/src/app.rs:119-149 | the fields change exactly as the key transition says |
| TuiApp.App.Draw | tui/src/ui.rs:104-106 | drawing changes only the selection, as the table render reconciles it with the rows |
| TuiApp.App.HandleEvents | tui/src/app.rs:102-116 | the oldest pending event is removed and handled, and nothing else changes |
| TuiApp.App.Run | tui/src/app.rs:94-100 | drawing and then handling one event per turn, the loop ends in the state the drained events give and keeps the invariant |
| LegacyApp.ConstraintLens | src/app.rs:163-194 | over no executions every width is 0 |
| LegacyApp.ConstraintLensIsMaximum | src/app.rs:163-194 | each of the four widths covers every execution in the window and equals the width of one of them |
| LegacyApp.WeightAppend | src/app.rs:64-70 | the pending work of two runs of events adds up |
| LegacyApp.TurnLightens | src/app.rs:64-70 | every turn lessens the pending work, so the loop over pending events ends |
| LegacyApp.InitialInv | src/app.rs:44-55 | the initial application, with widths (10, 4, 4, 20), keeps the invariant |
| LegacyApp.AddedProcessKeepsInv | src/app.rs:115-122 | adding an execution keeps the window bounded, any selection on a row and the widths those of the window |
| LegacyApp.OnKeyFrame | src/app.rs:88-102 | no key changes the window, the widths or `running` |
| LegacyApp.OnKeyKeepsCursor | src/app.rs:88-102 | every key keeps a selection on a row and the scroll at that row |
| LegacyApp.OnKeyKeepsInv | src/app.rs:88-102 | every key keeps the invariant |
| LegacyApp.OnEventKeepsInv | src/app.rs:72-85 | every event keeps the invariant |
| LegacyApp.TurnKeepsInv | src/app.rs:64-70 | a turn of the loop, drawing and then handling the next event, keeps the invariant |
| LegacyApp.DrawnKeepsInv | src/ui.rs:76-78 | drawing keeps the invariant, clears the selection on the empty window and leaves it alone otherwise |
| LegacyApp.DrawnRowMovesAsWritten | src/app.rs:64-70 | on a drawn state the guarded row moves the model makes are exactly the as-written ones, which do not panic |
| LegacyApp.HandleNextKeepsInv | src/app.rs:72-85 | handling the oldest pending event keeps the invariant |
| LegacyApp.DrainKeepsInv | src/app.rs:64-70 | the loop keeps the invariant however many events it handles |
| LegacyApp.OnlyQuitStops | src/app.rs:79-82 | only a `Quit` event stops the application |
| LegacyApp.QuitKeyOnlyEnqueues | src/app.rs:90-93 | a quit key only sends `Quit` to the back of the channel |
| LegacyApp.EnterIgnored | src/app.rs:98-99 | Enter, like every key without an arm, changes nothing |
| LegacyApp.LensCoversWindow | src/app.rs:121 | the widths held always cover every execution in the window |
| LegacyApp.QuitStopsDrain | src/app.rs:64-70 | a `Quit` at the front of the channel stops the loop after one draw |
| LegacyApp.Arrivals | src/main.rs:46-48 | the feeder sends one `NewProcess` event per execution |
| LegacyApp.TurnOnArrival | src/app.rs:80 | an arriving execution is pushed into the window and the application keeps running |
| LegacyApp.DrainArrivalsPushes | src/app.rs:115-122 | handling a run of arrivals pushes them all, in order, and never stops the application |
| LegacyApp.ArrivalsKeepRecent | src/app.rs:115-122 | after arrivals the window holds exactly the most recent 50 executions received, in arrival order |
| LegacyApp.App.constructor | src/app.rs:44-55 | a new application is running, has no executions, selects row 0 and holds (10, 4, 4, 20) |
| LegacyApp.App.Quit | src/app.rs:111-113 | `quit` clears `running` and nothing else |
| LegacyApp.App.AddProcess | src/app.rs:115-122 | popping the oldest when full and then pushing gives the bounded push, and the widths are recomputed |
| LegacyApp.App.NextRow | src/app.rs:124-137 | the selection and scroll move as the guarded `next_row` says |
| LegacyApp.App.PreviousRow | src/app.rs:139-152 | the selection and scroll move as the guarded `previous_row` says |
| LegacyApp.App.HandleKeyEvent | src/app.rs:88-102 | the fields change exactly as the key transition says |
| LegacyApp.App.Draw | src/ui.rs:76-78 | drawing changes only the selection, as the table render reconciles it with the rows |
| LegacyApp.App.HandleEvents | src/app.rs:72-85 | the oldest pending event is removed and handled, and nothing else changes |
| LegacyApp.App.Run | src/app.rs:64-70 | drawing and then handling one event per turn, the loop ends in the state the drained events give and keeps the invariant |

## Left out

- The terminal drawing (tui/src/ui.rs, src/ui.rs) is not modelled beyond its one effect on the state: the stateful table render (tui/src/ui.rs:104-106, src/ui.rs:76-78) clears or clamps the selection, as `DrawClamp` says. The layout, the styles and the `% COLORS.len()` colour pick of tui/src/ui.rs are presentation only.
- The table render skips that reconciliation when the table is given an empty area on screen. The model's draw always reconciles, so the as-written panics of the Findings cannot occur in `Run`.
- The render also moves the table's scroll offset and keeps a selected column. Neither is modelled.
- ebpf/userland/src/main.rs (the loader and its polling loop) is not part of this model. Its consumer side is only represented by `Capture.RingBuf.Next`.
- The ring's size is the `RingBuf` constructor's parameter. The map is declared with 256 bytes, but the kernel sizes ring buffers in whole pages, so the effective size is left open; 256 bytes would hold one frame, a 4096-byte page 28. Producers running at once on several CPUs are not modelled. The ring is a bounded FIFO of 144-byte frames: an 8-byte record header plus the 136-byte `Event`.
- The event channel, the tick source and the threads are not modelled. `crate::event::EventHandler` is not part of this model.
  - The channel is the `queue` field, and `events.send` appends to it.
  - The blocking `events.next()` becomes a requirement that an event is pending.
  - `Run` stops when the application stops or nothing is pending, rather than waiting for more.
  - The `send(...).unwrap()` panic on a closed channel is not modelled.
- The feeder loop's input is a sequence of `LineRead` values. The child process it reads is not modelled, and neither is the `reader().unwrap()` that starts it.
- Foreign libraries are parameters:
  - chrono parsing and printing;
  - `UnicodeWidthStr::width`;
  - `colored` styling;
  - sysinfo's process and user tables;
  - the eBPF helpers and user memory.
  They are modelled as functions, maps and oracle values with no properties beyond their types.
- Column selection (`select_next_column`, `select_previous_column`) is ratatui state. `l`, `h`, Right and Left are modelled as changing nothing that is modelled.
- The scrollbar's content length is not modelled. Only its position is: the selected row times `ITEM_HEIGHT`.
- The `Display` of `ProcessExecution` (tui/src/main.rs:90-104, src/main.rs:139-150) only prints `ref_array` or the fields in colour. It is not modelled.
- `MAX_PATH_LEN` and the `filename` pointer of the tracepoint record are never used by the capture. Neither is modelled.
- Store.NextRow: on an empty window it leaves a `Some` selection as it is. The source panics there instead when no draw has cleared the selection first (see Findings); after a draw the two agree.
- Store.PreviousRow: from row 0 on an empty window it leaves the selection as it is. The source panics there instead when no draw has cleared the selection first (see Findings); after a draw the two agree.
- TuiApp.Entered: it does nothing when the selection has no row. The source panics there instead when no draw has cleared the selection first (see Findings); after a draw the two agree.
- TuiApp.ConstraintLensIsMaximum: the maximum property is stated only for widths below 2^16. For wider entries the model computes the `as u16` truncation exactly, but proves nothing more about it.
- LegacyApp.ConstraintLensIsMaximum: the same restriction to widths below 2^16.
- A Rust release build wraps `len() - 1` to `usize::MAX` instead of panicking. Only the debug-build panic is modelled as the as-written behaviour.

## Findings

Each row needs a frame in which the table is drawn into an empty area. Otherwise the draw before every event clears the initial selection on the empty window, and nothing panics (`Store.DrawnRowMovesDoNotPanic`, `TuiApp.DrawnEnterDoesNotPanic`).

| source | as written | input that shows it | evidently intended | confidence | as-written member | corrected member |
|---|---|---|---|---|---|---|
| tui/src/app.rs:175-203 | `next_row` and `previous_row` compute `self.processes.len() - 1` on a `usize`, and the table starts with `with_selected(0)` (line 79) | `j`, `Down`, `k` or `Up` pressed before the first execution arrives, while the table has no screen area, so the selection is still `Some(0)` on the empty window | the row moves are safe on an empty window without relying on the render | low (not executed) | Store.RowMoveOnEmptyStorePanics | Store.NextRow |
| src/app.rs:124-152 | the same `len() - 1` underflow, and the same initial `with_selected(0)` (line 51) | `j` or `k` pressed at start-up on the empty window, while the table has no screen area | the row moves are safe on an empty window without relying on the render | low (not executed) | Store.RowMoveOnEmptyStorePanics | Store.PreviousRow |
| tui/src/app.rs:130-133 | Enter looks up the selected row with `self.processes.get(i).unwrap()` | Enter pressed before the first execution arrives, while the table has no screen area, so the selection is still `Some(0)` on the empty window | a selection with no row shows nothing | low (not executed) | TuiApp.EnterOnEmptyWindowPanics | TuiApp.Entered |
