# dcclicht in Dafny

A model of the logic of the dcclicht firmware, an eight-channel LED dimmer for an
STM32 written in Rust on the embassy executor, with proofs about it. A terminal on
the serial line shows a menu. Bytes typed on it select a channel and
change its brightness: `0`..`8` select, `s`/`w` select the next or previous channel,
`+`/`d` and `-`/`a` raise or lower the selected level, and `r` repaints. A second task
turns the eight levels into duty cycles on two timers whenever a level changes.

The modules follow the source files:

- `Fmt` (fmt.dfy) formats numbers the way Rust's `{}` and `{:3}` do. It also has
  parsers that read such text back, so the proofs can state round trips.
- `Ansi` (ansi.dfy) holds the control sequences the menu writes. These are cursor
  position (CUP, section 8.3.21 of ECMA-48), erase display (ED, section 8.3.39),
  inverse video on and off (SGR, section 8.3.117) and reset to initial state (RIS,
  section 8.3.105).
- `Uart` (uart.dfy) models the transmit half of the buffered UART as the string
  written so far.
- `Dimmer` (dimmer.dfy) models the static `DIMMER` array and the `UPDATE` signal of
  menu.rs. Pure functions say what `get_dimmer`, `set_dimmer`, `inc_dimmer` and
  `dec_dimmer` do to the bank's value. The class `DimmerBank` holds the array and
  the `pending` flag, and its methods update them in place. `wait_dimmer` consumes the
  flag.
- `SerialMenu` (menu.dfy) covers `menu_init`, `menu_update` and `menu`:
  - functions give the exact text each one writes;
  - methods write that text to the UART;
  - a status-line parser shows that what is written carries exactly the channel, its
    highlight and its level.
- `Dispatch` (dispatch.dfy) models the `match c` of the receive loop in main.rs.
  `NextCtl` and `Emitted` say what one byte does to the selection `act` and to the
  bank, and which redraws it asks for. `Step` and `Chunk` do this in place.
- `Pwm` (pwm.dfy) covers the `PWMSTEPS` table, the assignment of dimmers to timer
  channels, one pass of eight duty-cycle writes, and the `pwm_task` loop.
- `Firmware` (firmware.dfy) models the whole firmware. Start-up is followed by any
  interleaving of received chunks and turns of the PWM task. The executor is
  cooperative, so each event runs to its next `await`. The main invariant is that no
  level change is lost: once the PWM task has run, either a wake is pending or the
  last eight duty cycles written are those of the current levels.

## Model

| member | source | states |
|---|---|---|
| Dimmer.GetLevel | software/rust/dcclicht/src/menu.rs:22-30 | `get_dimmer` on the bank's value: 0 for an index past 7, otherwise the level stored at that index |
| Dimmer.SetLevel | software/rust/dcclicht/src/menu.rs:32-39 | an index past 7 leaves the bank unchanged and does not signal; otherwise only that level becomes `val` and the signal is raised, even when the value is the same; levels stay in 0..15 when `val` does |
| Dimmer.IncLevel | software/rust/dcclicht/src/menu.rs:55-67 | other levels are untouched; the level rises by one below 15 and is left as it is at 15 or above; the signal is raised exactly when a level changed; the 0..15 range is kept |
| Dimmer.DecLevel | software/rust/dcclicht/src/menu.rs:41-53 | other levels are untouched; the level falls by one above 0 and stays at 0; the signal is raised exactly when a level changed; the 0..15 range is kept |
| Dimmer.GetAfterSet | software/rust/dcclicht/src/menu.rs:22-39 | reading after `set_dimmer(idx, val)` gives `val` for a valid index, and every other index reads as it did before |
| Dimmer.IncDecInverse | software/rust/dcclicht/src/menu.rs:41-67 | below 15 a decrement undoes an increment, and above 0 an increment undoes a decrement |
| Dimmer.IncSaturates | software/rust/dcclicht/src/menu.rs:55-67 | k increments give min(level + k, 15) and keep every level in 0..15; they never wrap |
| Dimmer.DecSaturates | software/rust/dcclicht/src/menu.rs:41-53 | k decrements give max(level - k, 0) and keep every level in 0..15; they never wrap |
| Dimmer.DimmerBank.constructor | software/rust/dcclicht/src/menu.rs:19-20 | the static array starts with all eight levels 0 and no wake pending |
| Dimmer.DimmerBank.Get | software/rust/dcclicht/src/menu.rs:22-30 | an index past 7 reads as 0; otherwise the read gives that dimmer's level |
| Dimmer.DimmerBank.Set | software/rust/dcclicht/src/menu.rs:32-39 | the new bank is `SetLevel` of the old one |
| Dimmer.DimmerBank.Inc | software/rust/dcclicht/src/menu.rs:55-67 | the new bank is `IncLevel` of the old one |
| Dimmer.DimmerBank.Dec | software/rust/dcclicht/src/menu.rs:41-53 | the new bank is `DecLevel` of the old one |
| Dimmer.DimmerBank.Wait | software/rust/dcclicht/src/menu.rs:69-71 | resolves exactly when a wake is pending, and clears it; the levels are unchanged |
| Fmt.NatToString | software/rust/dcclicht/src/menu.rs:88-92 | `{}` gives at least one digit, only digits, and no leading zero |
| Fmt.RightJustify | software/rust/dcclicht/src/menu.rs:88-92 | `{:3}` pads with spaces on the left up to the width, keeps the numeral whole and never truncates |
| Fmt.DecimalRoundTrip | software/rust/dcclicht/src/menu.rs:88-92 | the digits `{}` writes denote the number written |
| Fmt.ParseNatRoundTrip | software/rust/dcclicht/src/menu.rs:88-92 | reading a decimal back from `{}` text gives the number and the text after it |
| Fmt.ParseFieldRoundTrip | software/rust/dcclicht/src/menu.rs:88-92 | reading a field written with `{:w}` gives the number back |
| Fmt.NatToStringWidth | software/rust/dcclicht/src/menu.rs:88-92 | a number below 1000, which covers every `u8` and every index, takes at most three digits |
| Ansi.CursorPosition | software/rust/dcclicht/src/menu.rs:88 | the CUP text `ESC [ row ; column H`, with both numbers in shortest decimal as `{}` formats them |
| Ansi.CursorPositionRoundTrip | software/rust/dcclicht/src/menu.rs:88 | the CUP sequence `ESC [ row ; column H` reads back as its row and column |
| SerialMenu.LineText | software/rust/dcclicht/src/menu.rs:87-93 | the `writeln!` text of the status line of channel idx: cursor to row idx + 4, column 10, the label `Licht idx: `, the level right-justified to width 3 (between SGR 7 and SGR 0 when highlighted), then a newline |
| SerialMenu.UpdateText | software/rust/dcclicht/src/menu.rs:82-97 | what `menu_update(idx, sel)` writes: nothing for idx outside 1..8, otherwise the status line of channel idx, highlighted when idx == sel and showing the level of dimmer idx - 1, followed by cursor home |
| SerialMenu.MenuText | software/rust/dcclicht/src/menu.rs:99-113 | what `menu(sel)` writes: erase display, cursor to row 1 column 20, `DCC Licht - ` with the version and a newline, the updates of channels 1..8 in order, then cursor home |
| SerialMenu.ZeroFrom | software/rust/dcclicht/src/menu.rs:77-79 | the bank after `set_dimmer(n, 0)` for n = from..to-1 in turn, each an ignored call when n is past 7 |
| SerialMenu.HeadRoundTrip | software/rust/dcclicht/src/menu.rs:88-92 | the start of a status line reads back as row idx + 4, column 10 and channel label idx |
| SerialMenu.LevelRoundTrip | software/rust/dcclicht/src/menu.rs:88-92 | the level field reads back as the level, and it is in inverse video exactly when the line is highlighted |
| SerialMenu.LineRoundTrip | software/rust/dcclicht/src/menu.rs:85-96 | a status line followed by cursor home reads back as its channel, highlight and level |
| SerialMenu.UpdateRoundTrip | software/rust/dcclicht/src/menu.rs:82-97 | the redraw of channel idx in 1..8 shows channel idx with level `get_dimmer(idx - 1)`, highlighted exactly when idx is the selection |
| SerialMenu.UpdateEmptyIff | software/rust/dcclicht/src/menu.rs:85 | `menu_update` writes nothing exactly when idx is outside 1..8 |
| SerialMenu.UpdateThenRoundTrip | software/rust/dcclicht/src/menu.rs:82-97 | a redraw followed by further text reads back as what the redraw shows, then what follows |
| SerialMenu.LinesFromRoundTrip | software/rust/dcclicht/src/menu.rs:108-110 | the redraws of channels k..8 read back, in order, as those channels |
| SerialMenu.MenuLinesRoundTrip | software/rust/dcclicht/src/menu.rs:108-110 | the eight status lines of the menu read back in order as channels 1..8, each with its own level; a line is highlighted exactly when its channel is `sel` |
| SerialMenu.InfosFromAt | software/rust/dcclicht/src/menu.rs:108-110 | the j-th line shown from channel k on is channel k + j with its level |
| SerialMenu.LineFits | software/rust/dcclicht/src/menu.rs:83-89 | every status line fits the 127-byte `heapless::String`, so its `unwrap` cannot fail |
| SerialMenu.MenuUpdate | software/rust/dcclicht/src/menu.rs:82-97 | appends exactly `UpdateText(idx, sel, levels)` to the UART and leaves the bank unchanged |
| SerialMenu.MenuLines | software/rust/dcclicht/src/menu.rs:108-110 | the loop appends the updates of channels 1..8, in order; the bank is unchanged |
| SerialMenu.Menu | software/rust/dcclicht/src/menu.rs:99-113 | appends erase display, cursor to row 1 column 20, the title line, the eight status lines and cursor home, in that order; the bank is unchanged |
| SerialMenu.MenuInit | software/rust/dcclicht/src/menu.rs:73-80 | as written: writes `InitText`, which is RIS (ESC c, bytes 27 and 99) and three BELs, then applies `set_dimmer(n, 0)` for n = 1..8 |
| SerialMenu.MenuInitAllChannels | software/rust/dcclicht/src/menu.rs:73-80 | corrected: writes RIS and three BELs, then applies `set_dimmer(n, 0)` for n = 0..7 |
| SerialMenu.ZeroFromEffect | software/rust/dcclicht/src/menu.rs:32-39 | zeroing indices from..to-1 clears exactly those that are valid dimmers and raises the signal exactly when one of them is valid |
| SerialMenu.MenuInitMissesFirstDimmer | software/rust/dcclicht/src/menu.rs:77-79 | as written, dimmers 1..7 are cleared and the signal is raised, but dimmer 0 keeps its level, for instance 5 |
| SerialMenu.MenuInitAllChannelsZeroes | software/rust/dcclicht/src/menu.rs:73-80 | the corrected loop leaves all eight levels 0 and a wake pending, from any bank |
| SerialMenu.MenuInitAgreesAtBoot | software/rust/dcclicht/src/menu.rs:19 | from the static all-zero bank, both loops leave the same bank |
| Dispatch.NextCtl | software/rust/dcclicht/src/main.rs:86-120 | what one byte does to `act` and the bank: `+`/`d` and `-`/`a` increment or decrement dimmer act - 1 when act > 0; a digit sets act to c - 48; `s` adds one below 8; `w` subtracts one above 0; `r` and every other byte change nothing |
| Dispatch.Emitted | software/rust/dcclicht/src/main.rs:86-120 | the redraws one byte asks for, in the order of the arm: the selected line with the new levels for `+`/`-`; the old line plain then the new line highlighted for a digit, `s` and `w` when they move; the whole menu for `r`; nothing otherwise |
| Dispatch.RunCtl | software/rust/dcclicht/src/main.rs:85-121 | `for c in buf` on the selection and the bank: the bytes of the chunk, handled in order |
| Dispatch.RunOutput | software/rust/dcclicht/src/main.rs:85-121 | the redraws of a chunk: those of each byte, in order, each from the state the bytes before it left |
| Dispatch.LinesRoundTrip | software/rust/dcclicht/src/menu.rs:82-97 | the text of any series of status-line redraws reads back as what they show, in order |
| Dispatch.RenderAppend | software/rust/dcclicht/src/main.rs:85 | the text of two series of redraws, one after the other, is the concatenation of their texts |
| Dispatch.IncCommand | software/rust/dcclicht/src/main.rs:87-92 | with a channel selected, `+`/`d` raise its level and the line reads back as that channel highlighted with the new level; with none selected nothing changes and nothing is written |
| Dispatch.DecCommand | software/rust/dcclicht/src/main.rs:93-98 | the same for `-`/`a` with a decrement |
| Dispatch.SelectedLineRoundTrip | software/rust/dcclicht/src/main.rs:90 | the redraw `menu_update(act, act)` of a channel 1..8 reads back as that channel, highlighted, with its level |
| Dispatch.SelectCommand | software/rust/dcclicht/src/main.rs:99-103 | a digit selects channel c - 48 and leaves the levels alone; the output reads back as the old line plain, then the new line highlighted, and a "line" for channel 0 shows nothing |
| Dispatch.SelectNextCommand | software/rust/dcclicht/src/main.rs:105-111 | below 8, `s` moves to the next channel, redraws the old line plain and the new one highlighted; at 8 nothing changes and nothing is written |
| Dispatch.SelectPreviousCommand | software/rust/dcclicht/src/main.rs:112-118 | above 0, `w` moves to the previous channel with the same redraws; at 0 nothing changes and nothing is written |
| Dispatch.RepaintCommand | software/rust/dcclicht/src/main.rs:104 | `r` changes neither the selection nor any level, and writes the full menu for the current selection |
| Dispatch.OtherByte | software/rust/dcclicht/src/main.rs:119 | every other byte changes nothing and writes nothing |
| Dispatch.RunKeepsBounds | software/rust/dcclicht/src/main.rs:85-120 | every run of bytes keeps the selection in 0..8 and every level in 0..15, so `act - 1` is always a valid dimmer |
| Dispatch.RunComposes | software/rust/dcclicht/src/main.rs:71-122 | handling `a` and then `b` is the same as handling `a + b`: the selection, the bank and the output carry over between chunks |
| Dispatch.RunSignalsChanges | software/rust/dcclicht/src/main.rs:85-120 | commands never clear a pending wake; after any run, either a wake is pending or the levels are those the run started with |
| Dispatch.SelectNextSaturates | software/rust/dcclicht/src/main.rs:105-111 | k presses of `s` move the selection to min(act + k, 8) and leave the bank alone |
| Dispatch.SelectAndAdjustScenario | software/rust/dcclicht/src/main.rs:85-103 | from start-up, "5++-" selects channel 5 and leaves dimmer 4 at 1, having passed through 1 and 2 |
| Dispatch.Move | software/rust/dcclicht/src/main.rs:100-102 | `menu_update(act, 0)`, then `menu_update(to, to)`: appends the texts of those two redraws |
| Dispatch.Adjust | software/rust/dcclicht/src/main.rs:88-97 | the bank becomes `IncLevel` or `DecLevel` of the selected dimmer, then that line is redrawn highlighted with the new level |
| Dispatch.Redraw | software/rust/dcclicht/src/main.rs:104 | `menu(act)`: appends the full menu and leaves the bank unchanged |
| Dispatch.Step | software/rust/dcclicht/src/main.rs:86-120 | one arm of the match leaves the selection and bank that `NextCtl` gives and appends the text of exactly `Emitted`'s redraws |
| Dispatch.Chunk | software/rust/dcclicht/src/main.rs:84-121 | the bytes of a chunk, handled in order, leave the selection and bank of `RunCtl` and append the text of `RunOutput` |
| Pwm.PwmStepsShape | software/rust/dcclicht/src/pwm.rs:11 | the table `PwmSteps` is 0, 2, 3, 4, 6, 8, 11, 16, 23, 32, 45, 64, 90, 128, 181, 255: it has 16 entries, starts at 0, ends at 255, and grows strictly; every entry is below 256 |
| Pwm.Duty | software/rust/dcclicht/src/pwm.rs:11 | `PWMSTEPS[level]` is in bounds for every level 0..15, gives a fraction below 1, and is 0 exactly at level 0 |
| Pwm.DutyMonotone | software/rust/dcclicht/src/pwm.rs:11 | a brighter level gives a strictly larger duty numerator |
| Pwm.Driver | software/rust/dcclicht/src/pwm.rs:27-34 | each timer channel 1..4 is driven by a dimmer 0..7 |
| Pwm.MappingIsBijection | software/rust/dcclicht/src/pwm.rs:27-34 | `pwm2` channels 1..4 take dimmers 7..4 and `pwm1` channels 1..4 take dimmers 3..0; each dimmer drives exactly one channel |
| Pwm.Pass | software/rust/dcclicht/src/pwm.rs:27-34 | the eight writes of one pass in source order: `pwm2` channels 1..4 get `PWMSTEPS` of dimmers 7..4 and `pwm1` channels 1..4 get `PWMSTEPS` of dimmers 3..0, each over 256 |
| Pwm.PassWritesEveryChannelOnce | software/rust/dcclicht/src/pwm.rs:27-34 | one pass writes each of the eight channels exactly once, each with the table entry of its own dimmer over 256 |
| Pwm.Timers.SetDutyCycleFraction | software/rust/dcclicht/src/pwm.rs:27 | records one `set_duty_cycle_fraction` call |
| Pwm.ApplyPass | software/rust/dcclicht/src/pwm.rs:27-34 | the eight writes, in source order, are `Pass` of the current levels |
| Pwm.RunPwmTask | software/rust/dcclicht/src/pwm.rs:25-37 | up to the next blocking wait, the loop makes one pass at the top of a fresh task, plus one more if a wake is pending; the levels are unchanged and the wake is consumed |
| Uart.Tx.Write | software/rust/dcclicht/src/menu.rs:94 | `bwrite_all` appends the bytes to what the terminal receives |
| Firmware.Next | software/rust/dcclicht/src/main.rs:80-123 | one event: a received chunk moves the selection and the bank as `RunCtl` does and appends the text of `RunOutput` to the terminal; a PWM turn appends the passes the task makes before it blocks and clears the wake |
| Firmware.Boot | software/rust/dcclicht/src/main.rs:71-79 | the state at the first `fill_buf` keeps act in 0..8 and the levels in range, and is in sync |
| Firmware.BootState | software/rust/dcclicht/src/main.rs:71-79 | start-up leaves nothing selected, all levels 0 and a wake pending; the terminal gets the reset, the bells and the menu; nothing is written to the timers yet |
| Firmware.Trace | software/rust/dcclicht/src/main.rs:80-123 | every sequence of events keeps the selection in 0..8 and the levels in range |
| Firmware.NextInSync | software/rust/dcclicht/src/main.rs:80-123 | each chunk and each turn of the PWM task keeps the state sound and in sync |
| Firmware.TraceInvariant | software/rust/dcclicht/src/pwm.rs:25-37 | after any interleaving, once the PWM task has run, a wake is pending or the last eight writes are a pass over the current levels |
| Firmware.FromBoot | software/rust/dcclicht/src/main.rs:73-123 | from start-up, every interleaving of chunks and PWM turns keeps the outputs in step with the levels |
| Firmware.FirstPwmTurn | software/rust/dcclicht/src/pwm.rs:25-36 | the first PWM turn, from the start-up state, writes two passes with every channel off and consumes the wake |
| Firmware.WakesCoalesce | software/rust/dcclicht/src/menu.rs:20 | chunks received while the PWM task waits write no duty cycles; the next turn makes at most one pass, with the levels as they are by then |
| Firmware.ReceivesWriteNothing | software/rust/dcclicht/src/main.rs:85-120 | handling chunks never writes to the timers |
| Firmware.Handle | software/rust/dcclicht/src/main.rs:80-123 | one event on the bank, the UART and the timers does what `Next` says |
| Firmware.Reset | software/rust/dcclicht/src/menu.rs:73-80 | a fresh bank and UART after `menu_init` as written: all levels 0, a wake pending, and RIS plus three bells on the terminal |
| Firmware.Start | software/rust/dcclicht/src/main.rs:71-79 | start-up on fresh objects reaches exactly `Boot` |
| Firmware.Serve | software/rust/dcclicht/src/main.rs:80-123 | the receive loop and the PWM task through any events give exactly the `Trace` of those events |
| Firmware.Run | software/rust/dcclicht/src/main.rs:71-123 | the firmware from reset through any events gives exactly the `Trace` from `Boot` |

## Left out

- The hardware setup in main.rs:34-77 is not modelled: clocks, pins, construction of the timers and the UART, and spawning the tasks. The channel enables and `info!` lines at pwm.rs:14-23 are left out as well. All of this calls external HALs.
- btn.rs is not part of this model. It only awaits GPIO edges and logs.
- The embassy `Signal` and the executor are modelled, not implemented. The signal is a `pending` flag and `wait_dimmer` consumes it. Scheduling is a sequence of events, and each one runs up to its next `await`.
- The `interrupt::free` critical section is not modelled; each bank method runs atomically. True preemption is not modelled either.
- `defmt` logging (`info!`, `warn!`) is left out; it only produces diagnostics.
- The conversion inside `set_duty_cycle_fraction` to a timer compare value is left out. A write is kept as its (numerator, 256) pair.
- `CARGO_PKG_VERSION` is a `version` parameter. The title line must fit the 127-byte buffer, which is the condition under which the source's `unwrap` succeeds.
- `bwrite_all` is modelled as an append to the terminal's text. Its blocking, its transmit buffer and its `unwrap` error paths are left out.
- The terminal's bytes are kept as Dafny characters. Every character written is ASCII, apart from whatever the version string holds.
- The 32-byte receive buffer is not modelled: each `fill_buf` chunk is an event carrying any sequence of bytes, and `consume` is left out. A receive error, on which `fill_buf().await.unwrap()` (main.rs:82) panics, is not modelled; every wait for input ends with a chunk.
- Indices are unbounded naturals rather than `usize`. Arithmetic on `act`, levels and indices never goes near the width of either type.
- Dimmer.IncDecInverse: covers only levels up to 15. Higher levels are unreachable, so the bank never holds one.

## Findings

| source | as written | input that shows it | evidently intended | confidence | as-written member | corrected member |
|---|---|---|---|---|---|---|
| software/rust/dcclicht/src/menu.rs:77-79 | `for n in 1..=8 { set_dimmer(n, 0) }` uses the menu's 1-based channel numbers with the 0-based `set_dimmer`, so dimmers 1..7 are cleared, index 8 is rejected as out of range, and dimmer 0 is never cleared | a bank whose dimmer 0 holds 5 still holds 5 after `menu_init` | clear all eight dimmers, indices 0..7 | medium, not executed; the firmware calls `menu_init` only on the static all-zero bank, where the two agree | SerialMenu.MenuInitMissesFirstDimmer | SerialMenu.MenuInitAllChannelsZeroes |
