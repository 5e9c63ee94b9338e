# Sozo control loops, modelled in Dafny

Sozo is a small Raspberry Pi companion robot built from LEGO motors. It
watches its user's posture through a camera and a pose estimator. It warns
the user with voice clips, drives towards them and punches with its right
arm when bad posture keeps coming back. It drops a snack from a servo gate
on the first in-frame, acceptable-posture cycle at least forty minutes after
the previous delivery, or after start-up for the first one. Bad cycles in
between do not delay it. This project models the robot's control logic: three polling loops and the snack dispenser. Each loop is a
class whose `Step` method runs one pass of the loop body. Each `Step` is
proved against a pure cycle function, and lemmas about runs of cycles state
what the loop promises.

- `commands.dfy` (`Commands`): the commands the loops send to the speaker,
  the motors, the indicators (LED and organic EL panel) and the servo. It
  also holds the repeated blocks: a strike is a punch followed by a
  retraction of the arm.
- `pose.dfy` (`Pose`): the six keypoints read from a sample, the sideways
  frame check, and the posture classification. The classification compares
  three height differences with the face scale, which is the vertical
  distance from the nose to the left eye.
- `shared_state.dfy` (`Shared`): the dictionary the threaded loops share,
  holding the presence flag and the posture flag.
- `posture_check.dfy` (`PostureCheck`): the posture loop of the threaded
  controller. While a user is present it does the following:
  - applies the frame checks;
  - classifies the sample;
  - counts bad cycles;
  - alerts after more than `bad_posture_limit` bad cycles;
  - punishes after more than `bad_posture_limit` alerts. Only a punishment
    clears the alert count; cycles with acceptable posture, out of frame or
    without a user leave it alone, so the alerts need not be consecutive.
- `monitor_user.dfy` (`MonitorUser`): the presence monitor. A distance
  reading under 200 sets presence at once. More than 100 far readings in a
  row clear it. The indicators follow the flag.
- `main_loop.dfy` (`MainLoop`): the older single-threaded loop, with its
  constants. It does the following:
  - lights the indicators on every cycle with a user;
  - applies the same escalation as the posture loop, but its punishment
    drives up to the user before striking;
  - when the user leaves, clears both counters, stops both motors and turns
    the indicators off, while the delivery timer keeps running;
  - delivers a snack on an in-frame, acceptable-posture cycle once forty
    minutes have passed since the last delivery (or since start-up).
- `snack_delivery.dfy` (`SnackDelivery`): the dispenser. It closes the gate
  on construction and opens then closes it on each delivery.
- `wrappers.dfy` (`Wrappers`): `Option`, for a distance read or a pose
  estimate that raised.

Modelling conventions:
- Coordinates and distances are `real`; time is an `int` number of seconds
  supplied with each cycle.
- Every device call is a command appended to the owning object's `trace`.
- The keypoint sample, the distance reading and the clock are parameters of
  each step.

## Model

| member | source | states |
|---|---|---|
| Pose.IsBadPosture | src/posture_check.py:337-340 | Defines the classification: with face scale `d = abs(nose.y - left_eye.y)`, the posture is bad exactly when `abs(ls.y - rs.y) > 2d`, `abs(ls.y - nose.y) < 2d` or `abs(lhip.y - ls.y) < 4d`. It has no contract of its own; the two lemmas below state its properties. |
| Pose.OutOfFrameSideways | src/posture_check.py:312 | Defines the sideways check: the left shoulder's x is beyond its limit or the right shoulder's x is short of its limit. No contract; used by both loops. |
| Pose.RescalePreservesVerdict | src/posture_check.py:337-340 | Each of the three ratio tests, and so the bad-posture verdict, gives the same answer after every height `y` becomes `a*y + b` with `a > 0`. The classification is therefore independent of the user's distance from the camera and of their height in the frame. |
| Pose.ZeroFaceScale | src/posture_check.py:337-340 | With zero face scale (nose level with the left eye), the posture is bad exactly when the shoulders are not level. |
| PostureCheck.OutOfFrameVertical | src/posture_check.py:322-323 | Defines the vertical check of the posture loop: left eye above its limit, right eye below its limit, left shoulder ABOVE its limit, or right shoulder below its limit. No contract. |
| PostureCheck.BackOff | src/posture_check.py:333-334 | Defines the back-off commands: the back clip, then the track turned by the configured rotation at the configured speed. No contract. |
| PostureCheck.Punishment | src/posture_check.py:357-365 | Defines the punishment sequence; `PunishmentShape` states its shape. |
| PostureCheck.PostureCycle | src/posture_check.py:303-373 | One pass of the posture loop. The counters stay in `[0, max(limit, 0)]`. With no user nothing changes and nothing is reset. When the estimator raises, the handler is reached with only the posture flag cleared. The shared posture flag is set exactly on a cycle that classifies an in-frame sample as bad. Sideways out of frame: only the move cue, counters kept. Vertically out of frame: the back cue and one back-off rotation, counters kept. Acceptable posture: nothing issued, counters kept. A bad cycle below the limit only counts; above it, it alerts and raises the second counter. The punishment runs if and only if both counters pass the limit, and it clears both. |
| PostureCheck.Escalation | src/posture_check.py:341-365 | The bad-posture branch keeps both counters within the limit. |
| PostureCheck.PostureRun | src/posture_check.py:301-365 | Cycles run back to back while the user stays present keep both counters within the bound. |
| PostureCheck.PresentCycle | src/posture_check.py:312-365 | The body for a present user with a sample, after the posture flag is cleared, keeps both counters within the bound. |
| PostureCheck.PostureRunAppend | src/posture_check.py:301-365 | Running the loop over two stretches of samples one after the other is running it over their concatenation. |
| PostureCheck.AlertThenOtherCycles | src/posture_check.py:312-356 | From a cleared first counter and the second counter one short of the limit, a block of `limit + 1` bad cycles followed by any cycles that are not bad issues one alert, then the gap's own commands, and leaves the counters at 0 and the limit. |
| PostureCheck.InterruptedAlertsStillPunish | src/posture_check.py:303-365 | From the same counters: a block of `limit + 1` bad cycles, then any cycles that do not classify an in-frame sample as bad, then a second such block. The whole run issues one alert, the gap's commands, a second alert and one full punishment, and ends with both counters cleared and the posture flag set. The alerts that lead to a punishment need not be consecutive. |
| PostureCheck.BlocksAlert | src/posture_check.py:341-356 | From a cleared first counter, each block of `limit + 1` bad cycles issues one alert and raises the second counter by one, as long as it stays within the limit. |
| PostureCheck.FullEscalation | src/posture_check.py:299-365 | From the counters the loop starts with (both 0), `limit + 1` blocks of `limit + 1` bad cycles issue `limit + 1` alerts and exactly one punishment, and end with both counters cleared and the posture flag set. |
| PostureCheck.OtherCyclesKeepCounters | src/posture_check.py:312-340 | Cycles that do not classify an in-frame sample as bad leave both counters unchanged, so the alerts that lead to a punishment need not be consecutive. |
| PostureCheck.PunishmentShape | src/posture_check.py:357-365 | A punishment is one run of the track for 3 s at the negated speed, then `punch_time` punch/retract pairs, then one run of the track for 3 s at the configured speed. It has `2*punch_time + 2` commands and exactly `punch_time` punches and `punch_time` retractions. |
| PostureCheck.BadStreakCounts | src/posture_check.py:341-351 | `n` bad cycles that stay within the limit raise the first counter by `n`, set the posture flag and issue nothing. |
| PostureCheck.BadStreakAlerts | src/posture_check.py:341-356 | From a cleared first counter, `limit + 1` bad cycles in a row issue exactly one alert and raise the second counter by one. |
| PostureCheck.BadStreakPunishes | src/posture_check.py:341-365 | With the second counter at the limit, `limit + 1` further bad cycles issue one alert and one full punishment, and clear both counters. |
| PostureCheck.PostureLoop.constructor | src/posture_check.py:299-300 | Both counters start at 0 and nothing has been issued. |
| PostureCheck.PostureLoop.Step | src/posture_check.py:301-373 | The loop body, with a sample or with the estimator's failure caught by the handler, updates the counters and the shared posture flag to those of `PostureCycle` and appends that cycle's commands to the trace. |
| PostureCheck.PostureLoop.Examine | src/posture_check.py:312-365 | The body after the flag is cleared matches `PostureCycle` on a present user. |
| PostureCheck.PostureLoop.Escalate | src/posture_check.py:341-365 | The counter updates and commands of the bad branch match `Escalation`. |
| PostureCheck.PostureLoop.Punish | src/posture_check.py:357-365 | The `for` loop appends exactly the punishment sequence. |
| Commands.StrikesCount | src/posture_check.py:359-363 | `n` strikes hold exactly `n` punches and `n` retractions. |
| MonitorUser.Observe | src/monitor_user.py:20-36 | A near reading (under 200) makes the user present with a cleared counter and turns both indicators on, whatever came before. A far reading raises the counter by one. Presence survives a far reading exactly while the new count is at most 100. Once the count passes 100, the indicators are turned off. A read that raised changes nothing. Presence is lost only on a far reading that takes the count past 100. The debounce invariant is preserved. |
| MonitorUser.Replay | src/monitor_user.py:19-38 | Ticks run back to back keep the debounce invariant. |
| MonitorUser.NoNearReading | src/monitor_user.py:22-32 | With no near reading, the counter grows by exactly the number of far readings. Presence survives exactly while that count stays within 100. |
| MonitorUser.DebounceAfterNear | src/monitor_user.py:22-30 | After the last near reading, the user is present if and only if at most 100 far readings have followed, and the counter holds their number. |
| MonitorUser.AbsentAfterEnoughFarReadings | src/monitor_user.py:27-32 | 101 far readings in a row clear presence from any debounced state. |
| MonitorUser.ReplayAppend | src/monitor_user.py:19-38 | Running the loop over two stretches of readings one after the other is running it over their concatenation. |
| MonitorUser.PresenceMonitor.constructor | src/monitor_user.py:18 | The counter starts at 0. |
| MonitorUser.PresenceMonitor.Step | src/monitor_user.py:20-36 | One pass updates the counter and the shared presence flag as `Observe` does, appends its indicator commands, and keeps the debounce invariant. |
| MonitorUser.PresenceMonitor.Poll | src/monitor_user.py:19-38 | The loop over a finite stretch of readings reaches the state and trace of `Replay`. |
| MainLoop.Escalation | src/main.py:58-75 | The bad-posture branch keeps both counters within `BAD_POSTURE_LIMIT`. |
| MainLoop.Classification | src/main.py:54-78 | The in-frame part of a cycle keeps both counters within the limit. |
| MainLoop.OutOfFrameVertical | src/main.py:49-50 | Defines the main loop's vertical check as written: left eye above 0.15, right eye below 0.4, left shoulder BELOW 0.05, or right shoulder below 0.95. No contract. |
| MainLoop.Punishment | src/main.py:64-72 | Defines the main loop's punishment: one `start(100)` per reading taken while the user is out of reach, `stop()`, then three strikes. `PunishmentStrikesThrice` states its strike count. |
| MainLoop.Attended | src/main.py:45-78 | The part of a present-user cycle after the indicators keeps both counters within the limit. |
| MainLoop.MainCycle | src/main.py:40-85 | One pass of the main loop. Both counters stay within 3. When absent: LED and EL off, both motors stopped, both counters 0, timer kept. When present, the indicators are lit first. A delivery happens if and only if the user is present, in frame, with acceptable posture, and at least 2400 seconds have passed; the timer restarts exactly then. Out-of-frame cycles issue only their cue and keep the counters. Acceptable posture keeps the counters. Bad posture counts, alerts or punishes. The punishment runs if and only if both counters pass the limit, and clears both. |
| MainLoop.LowShoulderNeverClassified | src/main.py:49-53 | With the vertical check as written, a sample whose left shoulder lies below 0.05 never reaches classification, so the counters and the timer are never touched. |
| MainLoop.InFrameShoulderAboveEye | src/main.py:49-50 | A sample passes the main loop's frame checks only if its left shoulder is at most 0.05 from the top of the frame and so above its left eye, which is at least 0.15 from it. |
| MainLoop.MainRun | src/main.py:40-85 | Cycles run back to back keep both counters within the limit and deliver at most once per cycle. |
| MainLoop.MainRunAppend | src/main.py:40-85 | Running two stretches of cycles one after the other is running their concatenation: the state is the second stretch's, the commands are joined and the deliveries added. |
| MainLoop.BadStreakCounts | src/main.py:58-59 | `n` bad cycles within the limit raise the first counter by `n` and only light the indicators. |
| MainLoop.BadStreakAlerts | src/main.py:58-62 | Four bad cycles from a cleared first counter issue one alert and raise the second counter by one. |
| MainLoop.BadStreakPunishes | src/main.py:58-73 | With the second counter at 3, four more bad cycles alert, punish once and clear both counters. |
| MainLoop.AlertBlockAfter | src/main.py:58-62 | After any run that leaves the first counter at 0 and the second below 3, four bad cycles append one alert block, raise the second counter by one and keep the timer and the delivery count. |
| MainLoop.PunishBlockAfter | src/main.py:58-73 | After any run that leaves the first counter at 0 and the second at 3, four bad cycles append one alert block and one punishment, clear both counters and keep the timer and the delivery count. |
| MainLoop.FullEscalation | src/main.py:37-73 | From the counters the loop starts with (both 0), four blocks of four bad cycles issue four alerts and exactly one punishment, and end with both counters cleared and the timer untouched. |
| MainLoop.PunishmentStrikesThrice | src/main.py:64-72 | However long the approach takes, a punishment strikes exactly `PUNCH_TIME` (3) times. |
| MainLoop.NoDeliveryBeforeInterval | src/main.py:76-78 | While the clock stays short of the interval past the timer, no delivery happens and the timer stays put. |
| MainLoop.MainController.constructor | src/main.py:32-38 | The dispenser is created with its gate closed, the timer starts at `now`, and both counters are 0. |
| MainLoop.MainController.Step | src/main.py:40-85 | The loop body reaches the counters, timer and trace of `MainCycle`, and delivers exactly when `MainCycle` asks for it. |
| MainLoop.MainController.Reset | src/main.py:79-85 | The absence branch matches `MainCycle` for an absent user. |
| MainLoop.MainController.Attend | src/main.py:45-78 | The presence branch after the indicators matches the frame checks and the classification. |
| MainLoop.MainController.Judge | src/main.py:54-78 | Classification, then escalation or the delivery timer, matches `Classification`. |
| MainLoop.MainController.Escalate | src/main.py:58-75 | The bad branch matches `Escalation`. |
| MainLoop.MainController.Punish | src/main.py:64-72 | The approach loop and the strike loop append exactly the punishment sequence. |
| SnackDelivery.Delivery.constructor | src/snack_delivery.py:6-10 | The servo is sent to angle 0 and nothing else. |
| SnackDelivery.Delivery.Give | src/snack_delivery.py:12-23 | A delivery appends exactly `set_angle(90)` then `set_angle(0)` and leaves the gate at 0. |
| SnackDelivery.GateClosedAfterEveryDelivery | src/snack_delivery.py:20-22 | After any number of deliveries, the last servo command closed the gate. |
| SnackDelivery.OpenedOncePerDelivery | src/snack_delivery.py:20-22 | After `n` deliveries, the gate was opened exactly `n` times and closed `n + 1` times. |

## Left out

- Pose estimation, image capture and rendering: the model and drawing code
  in `src/posture_check.py` before the loop, `src/posture_detection.py`, and
  the camera utilities. The keypoint sample is a parameter of each step.
- Only six of the estimator's seventeen keypoints are modelled, because the
  loops read no others. Their confidence scores are carried but never read,
  as in the source.
- Threads: the two threaded loops, `posture_check` and `monitor_user`, share
  an unsynchronised dictionary; the main loop keeps its state in locals and
  shares nothing. The model reads and writes the dictionary as plain fields
  within one step. Interleavings inside a step are not modelled.
- `time.sleep` and wall-clock time: each main-loop cycle gets one integer
  `now`. The second `time.time()` read at `src/main.py:78` is taken equal
  to the first read at `src/main.py:76`.
- Floating-point rounding: coordinates and distances are exact `real`s.
- Logging: the `verbose` prints and the handlers' error and traceback prints
  (`src/posture_check.py:314-318`, `:324-332`, `:343-350`, `:355-356`,
  `:360-361`, `:368`, `:372-373`; `src/monitor_user.py:35-36`) write only to
  the console and change no state, so they are not modelled.
- MainLoop.Punishment: the busy-wait `while read_distance() > PUNCH_DISTANCE`
  (`src/main.py:65-66`) is modelled as a given number `approachPolls` of far
  readings, each issuing `start(CATERPILLAR_SPEED)`. Whether the approach
  ever ends, and `PUNCH_DISTANCE` itself, are not modelled. The
  `run_time_start`/`run_time_end` clock reads are unused and left out.
- Exceptions: a failed `detect` in the posture loop and a failed
  `read_distance` in the monitor are missing inputs, caught by each loop's
  `except Exception` handler. KeyboardInterrupt, which ends the posture loop,
  is not modelled. The main loop has no handler.
- PostureCheck.PostureCycle: a speaker or motor call that raises part-way
  through a cycle is not modelled. In the source the handler then skips the
  rest of the cycle. A failure of the alert clip (`src/posture_check.py:352`)
  comes after the increment at `:341` and skips the reset at `:353`, so
  `bad_posture_flag` stays at `limit + 1`. A failure during the punishment
  (`:358`, `:362`, `:363`) skips the reset at `:364`, so
  `continual_bad_posture_flag` stays at `limit + 1`. The counter bound is
  promised only for cycles in which no device raises.
- MonitorUser.Observe: an indicator call that raises part-way through a tick
  is not modelled. If `led.on()` or `organic_el.on()` raises after presence
  is set (`src/monitor_user.py:23-25`), the counter is not cleared. The
  debounce invariant is promised only for ticks in which no device raises.
- PostureCheck.Config: `punch_time` is a natural number, so `range()` of a
  negative count (no strikes) is not modelled.
- The import of `detect` from `posture_detection` at `src/main.py:2`, which
  that module does not define: `detect` is treated as an external input.
- The device classes are not part of this model. `LED` (`src/lightning_control.py`)
  and the camera (`src/utils/common_functions.py`) run shell commands and
  capture images. `MotionSensor`, `UltrasonicSensor`, `ServoMotor`,
  `Speaker` and `OrganicEL` are imported (`src/main.py:1`, `src/main.py:4`,
  `src/snack_delivery.py:1`) but defined in no file of the repository.
  Their calls appear only as commands in the traces.
- `Delivery.give`'s `open_time` parameter only sets a sleep, so it is left
  out.
- As written, the monitor turns both indicators off again on every far
  reading after the hundredth, not once. The model keeps this behaviour.
- MainLoop.OutOfFrameVertical: the main loop's check rejects a left
  shoulder with `y > 0.05` (`src/main.py:50`), where the posture loop
  rejects `y < limit`. Both are modelled as written.
  `MainLoop.LowShoulderNeverClassified` states the consequence.
