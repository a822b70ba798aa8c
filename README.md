# AZ1UBALL trackball driver — Dafny model

A model of the Zephyr input driver for the AZ1UBALL optical trackball
(`palette,az1uball`). The driver has two entry points:

- **Bring-up** (`az1uball_init`). It clears the last-reported switch state and
  checks that the I2C bus is ready. It then writes the one-byte turbo-mode
  command `0x91` to the sensor and schedules the first poll.
- **The poll handler** (`az1uball_work_handler`). It runs every 10 ms. It reads the
  5-byte register block and turns it into two signed deltas:
  X = byte 2 − byte 3 and Y = byte 1 − byte 0. It reports each non-zero axis
  as a relative-motion event, X first. It then reads the push switch from bit 7
  of byte 4 and reports a key event when the switch differs from the state
  last reported. Last, it re-arms itself.

The project has three files:

- `registers.dfy` (module `Registers`) decodes the register block: the byte
  type, the `int16_t` narrowing, the two deltas and the switch bit.
- `cycle.dfy` (module `PollCycle`) states the handler as a function `Step`
  from the switch state and the read outcome to the reports made, the new
  switch state and the re-arm decision. It also has `Run`, which chains
  cycles until one fails to re-arm, and the lemmas about both.
- `driver.dfy` (module `Driver`) holds the driver data as a class,
  `Az1uball`. Its fields are `swPressed`, `swPressedPrev` and `pending`,
  where `pending` says whether the poll work item is scheduled. `Init` and
  `Poll` follow the C control flow statement by statement. Each is proved
  against its specification function, `InitOutcome` and `Step`.

The foreign calls become explicit inputs and outputs:

- The bus read is an input: a status code and the buffer contents.
- Bus readiness and the configuration write's status code are inputs to
  `Init`.
- The input publisher is a function from a report to its status code. Its
  answer only reaches the log, so every contract about `Poll` holds for any
  publisher.
- The delayed-work timer becomes the `pending` flag. Running the handler
  clears the flag, and the handler sets it again only if it re-arms.

Three facts about this version of the driver, which other versions of it
do differently:

- **A failed read ends polling.** The handler returns at
  src/az1uball.c:34, before the `k_work_reschedule` at line 81, so after
  one failed read no poll is scheduled again. `StepReadFailure` and
  `RunHaltsAtReadFailure` state this.
- **No scaling or smoothing.** The handler reports the raw deltas. There is
  no speed scaling, smoothing, motion accumulator or timestamp lock;
  `math.h` and `sys/mutex.h` are included but unused.
- **Byte order.** X = buf[2] − buf[3] (right minus left) and
  Y = buf[1] − buf[0] (down minus up).

## Model

| member | source | states |
|---|---|---|
| `Registers.ToInt16` | src/az1uball.c:38-39 | the `int16_t` narrowing lands in [−32768, 32767], is congruent to its argument modulo 2^16, and is the identity on values already in range |
| `Registers.DeltaX` | src/az1uball.c:38 | the X delta is exactly byte 2 − byte 3 and lies in [−255, 255]. It is positive iff byte 2 > byte 3 and negative iff byte 2 < byte 3, so no sign is lost to 8-bit wrap-around |
| `Registers.DeltaY` | src/az1uball.c:39 | the Y delta is exactly byte 1 − byte 0 and lies in [−255, 255], with the sign of the comparison of the two counters |
| `Registers.SwitchPressed` | src/az1uball.c:65 | the switch reads pressed iff the status byte has bit 7 (`MSK_SWITCH_STATE`) set, that is, iff the byte is at least 128 |
| `Registers.SwitchIgnoresLowBits` | src/az1uball.h:9 | flipping any of bits 0-6 of the status byte never changes the switch reading |
| `PollCycle.StepReadFailure` | src/az1uball.c:31-35 | a failed read reports nothing, leaves `sw_pressed`/`sw_pressed_prev` unchanged and does not re-arm the poll |
| `PollCycle.StepReadSuccess` | src/az1uball.c:64-81 | after a successful read the poll is re-armed, `sw_pressed` is bit 7 of byte 4 and `sw_pressed_prev` equals it. The publisher is called once per non-zero axis, plus once if the switch changed |
| `PollCycle.StepMotionReports` | src/az1uball.c:41-61 | an X report is made iff delta X ≠ 0, and a Y report iff delta Y ≠ 0. Each carries the raw delta. X comes first, then Y, and no motion report follows a key report |
| `PollCycle.StepNoMotion` | src/az1uball.c:42 | when both counter pairs are equal, no relative-motion report is made |
| `PollCycle.StepKeyReport` | src/az1uball.c:67-79 | a key report is made iff the new reading differs from the one last reported. It is for `INPUT_BTN_0`, with value 1 on press and 0 on release |
| `PollCycle.StepSwitchOnlyBit7` | src/az1uball.c:65 | two successful reads whose status bytes agree on bit 7 give the same switch state and the same key report, whatever bytes 0-3 and bits 0-6 hold |
| `PollCycle.StepKeyValues` | src/az1uball.c:68-69 | the key values one successful cycle reports are exactly the new reading's value (1 or 0) when it changed, and nothing otherwise |
| `PollCycle.StepReportsMotion` | src/az1uball.c:38-61 | in one successful cycle the X reports sum to delta X and the Y reports sum to delta Y |
| `PollCycle.RunHaltsAtReadFailure` | src/az1uball.c:31-35 | once a read fails, no later outcome matters. The run equals the run cut at the failure, it ends unscheduled, and it has polled at most up to the failure |
| `PollCycle.RunKeyReportsAreEdges` | src/az1uball.c:64-81 | over successful reads the key reports are exactly the edges of the switch-reading stream, so there is one report per change and none while the switch holds. Every cycle re-arms, and the state ends with `sw_pressed_prev == sw_pressed ==` the last reading |
| `PollCycle.RunReportsAllMotion` | src/az1uball.c:38-61 | over successful reads the reported X values sum to the sum of the raw X deltas, and likewise for Y |
| `PollCycle.EdgesAlternate` | src/az1uball.c:68-78 | the key reports alternate between press and release, the first reports the opposite of the starting state, and there are at most as many as cycles |
| `PollCycle.PressHoldReleaseHold` | src/az1uball.c:64-79 | starting released, the readings pressed, pressed, released, released with no motion give exactly two reports: press, then release |
| `Driver.InitOutcome` | src/az1uball.c:94-111 | polling is scheduled iff the return is 0 iff the bus is ready and the write succeeded. A bus that is not ready gives −ENODEV and no write. Otherwise exactly the byte 0x91 is written, and a failed write returns the bus error unscheduled |
| `Driver.Az1uball.constructor` | src/az1uball.c:115 | the static driver data starts zeroed: switch not pressed, nothing reported, no poll scheduled |
| `Driver.Az1uball.Init` | src/az1uball.c:85-112 | bring-up returns, writes and schedules as `InitOutcome` says. It clears `sw_pressed_prev` on every path and leaves `sw_pressed` alone. The sensor counts as configured (turbo mode accepted) exactly when the bus was ready and the write succeeded |
| `Driver.Az1uball.Poll` | src/az1uball.c:23-82 | the handler makes the reports `Step` gives, in order, and leaves the switch fields and the re-arm flag as `Step` says, whatever the publisher answers. It keeps the invariant that a scheduled poll implies a configured sensor |

## Left out

- I2C transport (`i2c_read_dt`, `i2c_write_dt`) and `device_is_ready`: these are Zephyr calls. Their results are inputs.
- The input publisher (`input_report_rel`, `input_report_key`): this is the Zephyr input subsystem. It is a function parameter whose answer is ignored, as the handler ignores it apart from logging.
- Logging (`LOG_ERR`, `LOG_DBG`): it does not change any state.
- The delayable work item and `POLL_INTERVAL` (10 ms): time and concurrency are not modelled. Scheduling is the `pending` flag.
- The `data->dev` back-pointer set at bring-up: it only connects the handler to its device.
- Device instantiation (`AZ1UBALL_DEFINE`, `DT_INST_FOREACH_STATUS_OKAY`): this is devicetree registration glue. The constructor stands for its zero-initialised static data.
- The `sync` and `K_NO_WAIT` arguments of the report calls: they are constant in every call and do not affect the driver.
- `ENODEV` is given the value 19, Zephyr's errno number. The header that defines it is not part of this model.
