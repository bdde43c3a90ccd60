# joyplot in Dafny

joyplot turns an analog gameport joystick into a pointing device for an HP-GL pen plotter on a
serial line. The whole program is one function, `jwdpmi_main` in `src/main.cpp`. This project
models the deterministic pieces of that function and proves what they guarantee:

- **Calibration** (`calibration.dfy`, module `Calibration`). The gameport configuration's
  default `calibration.min` and `calibration.max` arrays are swapped. A do-while loop then folds
  one raw 4-axis sample per pass into them with elementwise `min`/`max`. The loop stops after
  the first pass on which any button is down or `running` is false. `Calibrate` works in place
  on two 4-element arrays. The samples, button sets and `running` values the loop observes are a
  sequence of `Reading`s.
- **Key dispatcher** (`keydispatch.dfy`, module `KeyDispatch`). This is the `key_event` callback.
  Key-up events are ignored. Escape clears `running`. Numeric-pad plus and minus scale `speed` by
  1.5 and 0.75. Any other key is decoded to a character, and `SP<c>;` is written when
  `'0' < c < '9'`. `Dispatch` is the decision table. `Controls` holds `running` and `speed`, and
  `Controls.KeyChanged` is the callback.
- **Button edge detector** (`buttonedge.dfy`, module `ButtonEdge`). This is the `button_event`
  callback. A static 4-bit `last_state` starts at 0. Each report is XORed with it, and `PD;` or
  `PU;` is written when bit 0 differs. The report is then stored. `Edge` is the step,
  `ButtonDetector.Changed` the callback and `Emissions` the output over a sequence of reports.
- **Plotter protocol** (`protocol.dfy`, module `Protocol`). The commands are `IN;`, `PU;`, `PD;`,
  `SP<c>;`, `PA<x>,<y>;` and `PR<dx>,<dy>;`. Their numeric fields are signed 16-bit decimals.
  `Render` serialises them. `ParseOne`/`ParseAll` read them back, and `StreamRoundTrip` proves
  that every rendered stream parses back to exactly its commands.
- **Main-loop trace** (`controlloop.dfy`, module `ControlLoop`). First `IN;PA5180,3800;` is
  written, then one `PR<dx>,<dy>;` per pass of `while (running)`, then `IN;`. `Run` returns the
  written commands in order, and `TraceText` gives their text.
- `wrappers.dfy` holds the `Option` type.

Three behaviours of the code are worth stating:

- The calibration fold starts from the swapped library defaults (`src/main.cpp:59`), not from
  the first sample. `Calibration.NeutralSeeds` states when the two agree.
- Calibration stops on any button (`buttons().none()`, `src/main.cpp:68`), not only on bit 0.
- When `running` is already false after calibration, the code still writes `IN;PA5180,3800;`
  before the final `IN;` (`src/main.cpp:75`, `99`); nothing is skipped
  (`ControlLoop.Run`, `ControlLoop.StoppedRunText`).

## Model

| member | source | states |
|---|---|---|
| `Calibration.Calibrate` | src/main.cpp:57-69 | The defaults are swapped, and at least one sample is folded (do-while). The loop keeps sampling exactly while no button is down and `running` holds, and exits on the first pass where either fails. All 4 axes end as the running min/max of the folded samples, seeded with the swapped defaults. Afterwards `min[i] <= max[i]` and every folded `raw[i]` lies in `[min[i], max[i]]`. |
| `Calibration.LowIsLeast` | src/main.cpp:65 | The folded `min` of an axis is at most the seed and at most every sample, and equals the seed or one of the samples. |
| `Calibration.HighIsGreatest` | src/main.cpp:66 | The folded `max` of an axis is at least the seed and every sample, and equals the seed or one of the samples. |
| `Calibration.FoldIsMonotone` | src/main.cpp:60-68 | Folding more samples never raises `min` and never lowers `max`. |
| `Calibration.CalibratedRange` | src/main.cpp:59-68 | After at least one sample, `min <= max` and every sample lies in `[min, max]`, whatever the seeds. |
| `Calibration.NeutralSeeds` | src/main.cpp:59 | When the swapped defaults bound all samples, `min` and `max` are observed sample values. |
| `KeyDispatch.Dispatch` | src/main.cpp:32-46 | Key-up changes nothing and writes nothing. `running` changes exactly when escape is pressed while running. `speed` changes only on plus (×1.5) and minus (×0.75). A `SelectPen(c)` is written exactly for a non-up key other than escape, plus and minus whose character satisfies `'0' < c < '9'`. |
| `KeyDispatch.DispatchAll` | src/main.cpp:32-46 | Over a sequence of key events, at most one command is written per event, and a program that is stopped stays stopped. |
| `KeyDispatch.PenDigits` | src/main.cpp:41-43 | Among the digits, '1' to '8' select a pen; '0' and '9' do not. |
| `KeyDispatch.RunningOnlyCleared` | src/main.cpp:38 | Over any key sequence, `running` ends true exactly when it started true and no escape was pressed. Nothing sets it back to true. |
| `KeyDispatch.SpeedOnlyByScaleKeys` | src/main.cpp:39-40 | Over a key sequence without plus or minus presses, `speed` is unchanged. |
| `KeyDispatch.OnlyPenSelections` | src/main.cpp:41-43 | Over any key sequence, every command written is `SelectPen` of a character '1' to '8'. |
| `KeyDispatch.TwoSpeedUps` | src/main.cpp:39 | Two plus presses multiply `speed` by 2.25. |
| `KeyDispatch.Controls.constructor` | src/main.cpp:18-19 | `running` starts true and `speed` starts at 20000. |
| `KeyDispatch.Controls.KeyChanged` | src/main.cpp:32-46 | The callback's new `running`, `speed` and written command are exactly the decision table's. |
| `ButtonEdge.Edge` | src/main.cpp:80-81 | A command is written exactly when bit 0 of the report differs from bit 0 of the stored set. It is `PD` exactly on a 0→1 change and `PU` exactly on a 1→0 change, and at most one command is written per report. |
| `ButtonEdge.NoEdgeWithoutFireChange` | src/main.cpp:80-81 | Repeating the stored report, or changing only bits 1-3, writes nothing. |
| `ButtonEdge.ButtonDetector.constructor` | src/main.cpp:79 | `last_state` starts at 0. |
| `ButtonEdge.ButtonDetector.Changed` | src/main.cpp:77-83 | The command written is `Edge(old last_state, report)`, and `last_state` becomes the report. |
| `ButtonEdge.Emissions` | src/main.cpp:77-83 | Over a sequence of reports, at most one command is written per report, and each one is `PD` or `PU`. |
| `ButtonEdge.EmissionsAlternate` | src/main.cpp:79-82 | Over any report sequence, the commands written alternate PD, PU, PD, … They begin with the opposite of the stored bit 0. |
| `ButtonEdge.BalanceTracksFire` | src/main.cpp:79-82 | Over any report sequence, (#PD − #PU) equals the change of the stored bit 0. |
| `ButtonEdge.PenBalanceFromStart` | src/main.cpp:79-82 | From `last_state = 0`, #PD − #PU is 0 or 1. It is 1 exactly when bit 0 of the last report is set. |
| `Protocol.IntText` | src/main.cpp:95 | A 16-bit field is written in decimal: a leading `-` exactly for negative values, digits otherwise. |
| `Protocol.RenderShape` | src/main.cpp:43-99 | The text of every command is a two-letter upper-case mnemonic, its arguments and a closing `;`. `IN;`, `PU;` and `PD;` are 3 characters, and `SP` carries its pen character at position 2 in 4 characters. `RenderRoundTrip` shows the text reads back as exactly that command. |
| `Protocol.SingleTerminator` | src/main.cpp:43-99 | The closing `;` is the only `;` in a command's text, except for a pen named `;`. |
| `Protocol.RenderAllShape` | src/main.cpp:75-99 | The text of a command stream is at least 3 characters per command, and a non-empty stream's text ends in `;`. |
| `Protocol.RenderRoundTrip` | src/main.cpp:95 | Every command's text, followed by anything, parses back to that command and leaves exactly the following text. |
| `Protocol.StreamRoundTrip` | src/main.cpp:75-99 | Every stream of written commands parses back to exactly those commands. |
| `Protocol.RenderAllInjective` | src/main.cpp:75-99 | Two command streams with the same text are the same stream. |
| `Protocol.HomeText` | src/main.cpp:75 | The literal `IN;PA5180,3800;` is the text of `Init` followed by an absolute move to (5180, 3800). |
| `ControlLoop.FirstStop` | src/main.cpp:88 | The first loop test that sees `running == false`: every earlier test saw it true. |
| `ControlLoop.FirstStopUnique` | src/main.cpp:88 | A pass count that sees `running == false` with every earlier test true is `FirstStop`. This is exactly how `Run` describes its pass count. |
| `ControlLoop.Moves` | src/main.cpp:94-95 | One relative move per tick. |
| `ControlLoop.Trace` | src/main.cpp:75-99 | The written stream is 3 commands longer than the number of passes, and starts and ends with `Init`. |
| `ControlLoop.Run` | src/main.cpp:75-99 | The loop runs exactly while `running` holds and stops at the first test that sees it false, so its pass count is `FirstStop` (`FirstStopUnique`). The commands written are `Init`, the move home, one `MoveRelative(dx, dy)` per pass, then `Init`. When the very first test sees `running == false`, only init, home and init are written. |
| `ControlLoop.MovesAt` | src/main.cpp:95 | The k-th relative move carries the k-th tick's displacement. |
| `ControlLoop.TraceText` | src/main.cpp:75-99 | The text written is `IN;PA5180,3800;`, then the `PR` commands, then `IN;`. It parses back to exactly init, home, one relative move per tick, init. |
| `ControlLoop.TraceShape` | src/main.cpp:75-99 | The first two commands are `Init` and the move to (5180, 3800), and the last is `Init`. Between them there is exactly one `PR` per tick. |
| `ControlLoop.StoppedRunText` | src/main.cpp:75-99 | The text of what `Run` writes when `running` is already false at the first loop test is `IN;PA5180,3800;IN;`. Init and home are still written. |

## Left out

- The floating-point velocity path (`src/main.cpp:90-95`) is not modelled. This covers `dt` from the clock, `joystick.get() * dt * speed`, `round`, and the cast to `std::int16_t`, which is undefined for out-of-range values. Each tick's `dx`/`dy` is an input already in the 16-bit range.
- `speed` is a `real`. Single-precision rounding of `*= 1.5f` and `*= 0.75f` is not modelled, and neither is overflow to infinity; like the source, there is no clamp.
- The gameport's own normalisation (`joystick.get()`), including its degenerate-range handling, lives in the gameport library, which is not part of this model.
- The `gameport`, `ps2_interface`, `keyboard` and `to_ascii` drivers are not part of this model. The raw sample, the button set and the decoded key character are inputs. `KeyDispatch.Key.Other` carries the character `to_ascii(false, false, true)` returns.
- Timer setup and waiting are not modelled: `setup_pit`, `setup_tsc`, `yield_for(2s)`, `yield_until(now + 1ms)` and `clock::now()`.
- The serial stream configuration (COM1, XON/XOFF), `std::flush`, and the console messages on `std::cout` are not modelled.
- The callbacks interleave asynchronously with the main loop; here each one is a sequential step. The `running` value each loop test sees is part of the environment input (`Reading.running`, `Tick.running`). `KeyDispatch.RunningOnlyCleared` states that key events can only clear it.
- A run that never ends is not modelled. `Calibration.Calibrate` and `ControlLoop.Run` take a finite environment sequence in which some loop test ends the loop (`Stops`). The source would keep looping otherwise.
- `ControlLoop.Run` returns the written commands rather than their characters. Their text is `Protocol.RenderAll` of them, and `ControlLoop.TraceText` states it.
- `KeyDispatch.SpeedOnlyByScaleKeys` does not state the closed form of `speed` after a mix of plus and minus presses (1.5 to the number of plus presses times 0.75 to the number of minus presses); the per-event scaling is stated by `KeyDispatch.Dispatch`.
