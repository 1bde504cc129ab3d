# twatch-bare-metal firmware, modelled in Dafny

This project models the firmware `main` of a bare-metal ESP32 watch. The watch has an
AXP20x power-management chip (PMIC) on an I2C bus and a 240×240 ST7789 display on an
SPI bus. `main` has two parts:

- **Bring-up.** It disables the watchdogs and configures the pins. It then sets up the
  PMIC bus at 10 kHz, initialises the PMIC and requests the PMIC's LDO2 output on, which
  powers the backlight. Next it
  sets up the display bus at 26 MHz and initialises the panel. Finally it sets the
  `PortraitSwapped` orientation, clears the screen to black and draws the Ferris image
  at (34, 80).
- **Render loop.** This loop never ends. Each iteration reads the PMIC interrupt status
  and flips `show_hello` when the read returned an event. It then draws
  `"Hello Rust!"` at (30, 180), or erases that area by filling the 100×30 rectangle at
  (0, 170) with black. Next it reads VBUS presence. The `"*"` indicator at (30, 220) is
  drawn, or its 30×30 area at (20, 210) erased, only when the sample differs from
  `previous`. At that point `previous` takes the new sample.

Modules:

- `Geometry` (geometry.dfy): points, sizes and rectangles, the panel size, containment.
- `Draw` (draw.dfy): the loop's draw commands as opaque values (`DrawText`, `FillBlack`),
  their constants, and counting over command streams.
- `RenderLoop` (render_loop.dfy):
  - `RenderState` holds `showHello` and `previous`.
  - `Step` is the pure iteration once every call it makes has succeeded.
  - `Iterate` is the same iteration with every `unwrap` able to halt the firmware.
  - `Run` folds `Iterate` over a finite sequence of `Tick`s. A `Tick` gives how the four
    unwrapped calls of one iteration turned out.
- `BringUp` (bring_up.dfy): the bring-up as an append-only log of attempted steps. A
  `BootEnv` says which fallible calls fail.
- `Firmware` (firmware.dfy): `main` as the bring-up followed by the loop, and the merged
  event stream of both.

Hardware reads and draw outcomes are inputs. The interrupt read becomes "returned an
event, returned no event, or failed". The VBUS read becomes "present, absent, or failed". A draw becomes
"sent, or failed".

The code discards the result of the LDO2 request (`.ok()`, src/main.rs lines 66-67) and
initialises the panel regardless; `Boot` and `Ldo2FailureIgnored` model that.

## Model

| member | source | states |
|---|---|---|
| Draw.GreetingCommand | src/main.rs:118-127 | The greeting command is the text "Hello Rust!" at (30,180) exactly when the greeting is visible. Otherwise it is a black fill of the rectangle at (0,170), size 100×30. That rectangle lies inside the 240×240 panel and covers the text's anchor. It is never an indicator command. |
| Draw.IndicatorCommand | src/main.rs:131-140 | The indicator command is "*" at (30,220) exactly when VBUS is present. Otherwise it is a black fill of the rectangle at (20,210), size 30×30. That rectangle lies inside the panel and covers the glyph's anchor. It is never a greeting command. |
| Draw.EraseAreasDisjoint | src/main.rs:123-136 | The greeting's erase rectangle and the indicator's erase rectangle share no pixel. Neither covers the other's text anchor. |
| RenderLoop.Step | src/main.rs:112-143 | A non-empty interrupt read flips `showHello` and an empty one keeps it. `previous` becomes the VBUS sample. The first command is the greeting command for the new `showHello`. The iteration issues two commands when the sample differs from `previous`, the second being the indicator for the sample, and only the greeting otherwise. |
| RenderLoop.StepCounts | src/main.rs:118-143 | An iteration issues exactly one greeting command. It issues one indicator command if VBUS changed and none otherwise. |
| RenderLoop.Iterate | src/main.rs:112-143 | With every call succeeding, an iteration is `Step`. An iteration completes iff every call it makes succeeds: the interrupt read, the greeting draw and the VBUS read, and the indicator draw only when VBUS changed (an unused indicator draw cannot halt it); it is then `Step` of the values it read. Each failing call halts with its own fault and exactly the commands issued before it: none for a failed interrupt read, only the greeting for a failed greeting draw or VBUS read, the greeting and the indicator for a failed indicator draw on a VBUS change. A halt records no state. |
| RenderLoop.Run | src/main.rs:108-146 | A run records at most one state per iteration. It keeps running exactly when every iteration completed. |
| RenderLoop.RunAppend | src/main.rs:111-146 | Running two stretches of iterations one after the other equals running them together. The second stretch starts from the state where the first ended, unless the first halted. |
| RenderLoop.HaltIsFinal | src/main.rs:112-139 | After a failed unwrap, later iterations change nothing. There are no further commands and no further states. |
| RenderLoop.GreetingParity | src/main.rs:112-116 | After every completed iteration, the greeting's visibility relates to its initial visibility by the parity of the non-empty interrupt reads so far. It has flipped iff their number is odd. |
| RenderLoop.ParityFromStart | src/main.rs:108-116 | Start from `show_hello = false` with no failing call. The greeting ends visible iff an odd number of interrupt reads returned an event. |
| RenderLoop.NeverHalts | src/main.rs:111-146 | When no call fails, the loop never halts. |
| RenderLoop.PreviousIsLastSample | src/main.rs:129-143 | After every completed iteration, `previous` equals that iteration's VBUS sample. |
| RenderLoop.HaltedIterationGreetings | src/main.rs:112-127 | A halted iteration has issued exactly one greeting command, unless its interrupt read failed. In that case it issued none. |
| RenderLoop.OneGreetingPerIteration | src/main.rs:118-127 | The number of greeting commands in a run equals the number of completed iterations. A halted iteration that got past its interrupt read adds one more. |
| RenderLoop.OnlyGreetingAndIndicator | src/main.rs:118-143 | Every command of a run is a greeting or an indicator command. Every erase a run issues lies inside the panel and covers the anchor of the text it erases. |
| RenderLoop.IndicatorsCountEdges | src/main.rs:129-143 | When no call fails, the number of indicator commands equals the number of VBUS edges. An edge is a sample that differs from the one before it, with the first sample compared against the initial `previous`. |
| RenderLoop.SteadyVbusEdges | src/main.rs:130 | A stretch of identical VBUS samples has one edge if its value differs from the starting value. Otherwise it has none. |
| RenderLoop.HaltedIterationIndicators | src/main.rs:129-140 | A halted iteration has issued one indicator command if it halted on that command's draw, and none otherwise. |
| RenderLoop.SteadyVbusAtMostOneIndicator | src/main.rs:129-143 | In any run, failing calls included, any number of identical VBUS samples yields at most one indicator command. It yields none when the sample equals `previous`. |
| RenderLoop.SampleTrace | src/main.rs:108-143 | Interrupt reads [none, event, none, event] with VBUS [absent, absent, present, present], from the initial state. The greeting is hidden, shown, shown, then hidden. The single "*" is drawn in iteration 3. The exact command stream is given. |
| RenderLoop.VbusReadErrorHalts | src/main.rs:112-129 | A failed VBUS read in iteration 2 halts the run. That iteration's greeting command is the last command, and its state is never recorded. |
| BringUp.Execute | src/main.rs:24-99 | Bring-up logs a prefix of its steps. It completes iff every step whose failure is fatal succeeds. An aborted boot ends its log with the failing step, and every fatal step before it succeeded. |
| BringUp.Boot | src/main.rs:48-99 | Bring-up completes, having logged the whole plan, iff the I2C set-up, the PMIC init, the panel init, the orientation, the clear and the image draw all succeed. The LDO2 result does not count. |
| BringUp.WatchdogsDisabledFirst | src/main.rs:31-58 | Both watchdogs are disabled before the PMIC bus is set up and before the PMIC is initialised, whatever fails. |
| BringUp.PowerBeforeDisplay | src/main.rs:58-87 | The PMIC init, the LDO2 (backlight) request and the display bus set-up all come before the panel initialisation. |
| BringUp.OrientationAndClearBeforeImage | src/main.rs:87-99 | The panel initialisation, the orientation and the clear all come before the image draw. |
| BringUp.Ldo2FailureIgnored | src/main.rs:66-67 | A failed LDO2 request changes nothing. Bring-up logs the same steps and reaches the same verdict. A completed boot has requested LDO2. |
| BringUp.DisplayBusFaster | src/main.rs:48-78 | The PMIC bus runs at 10 kHz = 10,000 Hz and the display bus at 26 MHz = 26,000,000 Hz. In every boot log, the SPI clock is strictly greater than the I2C clock. |
| Firmware.PowerOn | src/main.rs:23-147 | The loop starts, from its initial state, exactly when bring-up completes. |
| Firmware.Events | src/main.rs:23-147 | `main`'s event stream is the bring-up log followed, only when the loop runs, by the loop's commands in order. |
| Firmware.LoopDrawsFollowBringUp | src/main.rs:66-146 | Every loop draw comes after the LDO2 request, the panel init, the orientation, the clear and the image draw. |

## Left out

- ESP32 HAL plumbing is not modelled beyond abstract log steps: `Peripherals::take`, `RtcCntl`, `Timer`, `IO`, the pin numbers, the pin mode changes, `Delay`, and the unused motor pin. `Peripherals::take().unwrap()` is left out because it runs once at reset and cannot find the peripherals already taken.
- The `backlight.set_high().ok()` result is discarded by the source, so it is folded into `ConfigurePins` as infallible.
- AXP20x register access and interrupt decoding are not modelled. Each interrupt read is reduced to "event / no event / failed" and each VBUS read to "present / absent / failed".
- The diagnostic `is_acin_present` / `is_vbus_present` reads during bring-up (lines 62-63) are left out. Their results are only printed and never unwrapped. All `println!` output is left out as best-effort diagnostics.
- The ST7789 command protocol, the orientation transform, the clear's pixels and font rasterisation are not modelled. Draws are opaque commands. How far the rendered text extends depends on font metrics that live in a library outside this repository. So the erase rectangles are shown to cover the text anchors, not whole glyph boxes.
- The `ferris.raw` asset and its pixel format are foreign data. Only the image's position and row width are kept.
- The loop's non-termination and the `continue` are left out. `Run` covers every finite prefix of iterations instead.
