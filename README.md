# Pill dispenser controller — a Dafny model

This project models the sequential logic of a pill dispenser's controller. Four pieces are modelled:

- **Workflow state machine** (`fsm.dfy`, from `fsm.py`). The declared states, the transition table built by `add_transition`, and the `PillDispenser` object whose `state` changes when a trigger fires.
- **Actuators** (`devices.dfy`, from `devices.py`).
  - The pill wheel is a stepper. `move` arms it and each `loop` call issues at most one micro-step.
  - The pump is a DC motor. `deliver_liquid` computes a full-rate time, a dribble time and a total time. `loop` picks the throttle from the elapsed time.
  - Both devices ignore a new request while one is in progress.
- **UI components** (`components.dfy`, from `components.py`).
  - The polled `OnLoopTimer`.
  - The `Button` press state, its callback and its rectangle arithmetic.
  - The `InputField` focus state and its geometry.
- **Screen stack** (`screens.dfy`, from `screens.py`). `ScreenManager` keeps screens as a stack and calls `on_enter`/`on_exit` on the top screen.

`wrappers.dfy` holds the shared `Option`, `Outcome` and `Result` datatypes.

How the model represents the outside world:

- **Classes.** Each stateful source class is a Dafny `class` holding the state its methods read and write. A value the source accepts but never stores (the dispenser's serial number) is a constructor parameter only. Its methods are proved against pure functions of the old state: `Arm`/`Tick` for the wheel, `Deliver`/`LoopThrottle` for the pump, `LoopAt` for the timer, `PressedAfter`/`Clicks` for the button, and the hook functions for the screen stack.
- **Hardware outputs.** The motor kit is an output log. The wheel records each `onestep`/`release`. The pump records each value written to `device.throttle`.
- **Callbacks and screen hooks.** A callback is counted, not executed. A screen hook is appended to a log.
- **Default arguments.** The source's default arguments are Dafny parameter defaults with the same values: `PillWheel.Create` (motor 1, 200 steps per revolution), `Pump.Create` (motor 1, throttles 0.75 and 0.25), `Pump.Setup` (20 and 300 s/mL), `OnLoopTimer` (no callback, interval 10), `Button` (no callback, at 0,0, 120×40, text "Button") and `InputField` (200×32 at y 40, border 2).
- **Clock.** The clock is the parameter `now`, in seconds.
- **Numbers.** Python floats are modelled as `real`. Python's `int()` truncation toward zero is modelled by `Trunc`.
- **Exceptions.** An exception the source raises becomes an error value:
  - `ValueError` for a bad motor number;
  - `ZeroDivisionError` in `move` and `deliver_liquid`;
  - `IndexError` when popping an empty screen stack;
  - the library's error for a trigger with no transition from the current state, which is `Fire` returning `false`.

## Behaviour as written

The model follows the code, including where the code does not do what its names and comments suggest. Each point below is a proved lemma on the as-written model:

- **Missing comma in the state list.** The comma after `'deliver_meds'` is missing (`fsm.py:8-9`), so Python joins the two names into one. `deliver_meds` and `waiting_cup_present` are therefore not declared (`MissingCommaFusesStates`).
- **`cup_clear` has an undeclared source.** Its source is `waiting_for_cup_clear`, which is not a declared state (`CupClearNeverFires`).
- **Most states are unreachable through the table.** From `wifi_security` the only exit leads back to `wifi_ssid`. The states reachable from `asleep` through the fourteen triggers added with `add_transition` are therefore exactly `asleep`, `splash_screen`, `wifi_ssid` and `wifi_security` (`ReachableExactly`). The library's automatic `to_<state>` triggers are not part of this model.
- **The delivery entries lead to undeclared states.** `med_time` leads to `waiting_cup_present` and `cup_on` to `deliver_meds`, and neither is declared. In the program, `med_time` from `checking_schedule` fails inside the library, because the destination is not a registered state. `cup_on` can never fire, because the machine is never in `waiting_cup_present`. The model states these as table entries (`CheckingScheduleExits`, `CupOnOnlyWhenWaiting`); the library's handling of undeclared destinations is left out.
- **Dead ends.** `loading_liquid_instructions` and `med_time` have no exits (`DeadEnds`).
- **Division instead of multiplication.** `move` divides revolutions by steps per revolution (`devices.py:125`). `deliver_liquid` divides the per-mL times by volumes (`devices.py:222`, `225`). Consequences:
  - `move(1)` with 200 steps per revolution gives a count of 1/200 and turns the wheel *backward* (`OneRevolutionStalls`).
  - A larger dose gets a shorter full-rate time (`FullRateTimeFallsWithVolume`).
- **A fractional count never completes.** The counter steps over a non-whole count without ever equalling it. The wheel then stays `moving` forever and ignores every later `move` (`FractionalCountNeverCompletes`, `StalledTicksAreIdle`).
- **A whole count n gives n+1 steps**, not n (`WholeCountTakesOneExtraStep`).
- **The pump never stops running.** Nothing resets `running`, so every delivery after the first is ignored (`RunningIsSticky`).
- **Seconds compared with milliseconds.** The durations are in milliseconds but the clock is in seconds, so 10 mL still runs at full throttle 2000 s after it starts (`SecondsAgainstMilliseconds`).
- **The timer is not one-shot.** Once the interval has passed it fires on every `loop` until `reset` (`KeepsFiring`).

## Model

| member | source | states |
|---|---|---|
| Fsm.Lookup | fsm.py:18-37 | For a table in insertion order, a state and a trigger: None exactly when no entry leaves that state on that trigger. Otherwise the destination of the first such entry. |
| Fsm.Registered | fsm.py:18-37 | The transition the library files under trigger `t` is an entry for `t`. |
| Fsm.IndexOf | fsm.py:18-37 | Each trigger's transition is an entry of the table, at a valid position. |
| Fsm.TableIndexed | fsm.py:18-37 | Every table entry sits at the position of its own trigger: each trigger is added exactly once. |
| Fsm.TriggersDistinct | fsm.py:18-37 | No two entries of the table share a trigger. |
| Fsm.OnlyEntry | fsm.py:18-37 | An entry whose trigger is `t` is the one entry filed under `t`. |
| Fsm.LookupSoleEntry | fsm.py:18-37 | When a trigger has a single entry, the first-match scan finds it exactly when its source is the current state. |
| Fsm.StepIsTableLookup | fsm.py:18-37 | For every state and trigger, the per-event step agrees with scanning the whole table in insertion order. |
| Fsm.Step | fsm.py:18-37 | A trigger fires from a state exactly when the table's entry for that trigger has that state as its source, and then it leads to that entry's destination. |
| Fsm.Next | fsm.py:18-37 | The state after a trigger: the step's destination when it fires, otherwise the same state. |
| Fsm.Deterministic | fsm.py:18-37 | A (state, trigger) pair has at most one destination in the table. |
| Fsm.InitialIsDeclared | fsm.py:15 | The machine starts in `asleep`, which is a declared state. |
| Fsm.WakeUpThenTimer | fsm.py:18-19 | `wake_up` takes `asleep` to `splash_screen`. `timer_complete` takes `splash_screen` to `wifi_ssid`. |
| Fsm.WifiRoundTrip | fsm.py:20-21 | From `wifi_ssid`, `wifi_ssid_complete` then `timeout_complete` returns to `wifi_ssid`. |
| Fsm.CheckingScheduleExits | fsm.py:30-34 | From `checking_schedule` the table has entries for exactly three triggers: `load_pressed`, `config_pressed` and `med_time`, each with its destination. No other trigger has an entry from that state. |
| Fsm.CupOnOnlyWhenWaiting | fsm.py:35 | The table's only `cup_on` entry has source `waiting_cup_present` and destination `deliver_meds`. No other state has a `cup_on` entry. |
| Fsm.MissingCommaFusesStates | fsm.py:6-10 | The declared list holds the fused name, spelled as the two names joined. Neither `deliver_meds` nor `waiting_cup_present` is declared. |
| Fsm.CupClearNeverFires | fsm.py:37 | `waiting_for_cup_clear` is undeclared, and no declared state fires `cup_clear`. |
| Fsm.DeadEnds | fsm.py:18-37 | No trigger fires from `loading_liquid_instructions` or from `med_time`. |
| Fsm.StepClosed | fsm.py:18-37 | One trigger from a state in {asleep, splash_screen, wifi_ssid, wifi_security} stays in that set. |
| Fsm.Run | fsm.py:18-37 | A sequence of triggers run from a state in that set ends in that set. |
| Fsm.ReachableExactly | fsm.py:15-37 | A state is in that set if and only if some sequence of triggers from `asleep` reaches it. |
| Fsm.PillDispenser.constructor | fsm.py:13-15 | A new dispenser is in `asleep`, inside the reachable set. The serial number is accepted but not stored. |
| Fsm.PillDispenser.Fire | fsm.py:18-37 | A trigger fires exactly when the table has an entry for it from the current state, and the state becomes that entry's destination. Otherwise the state is unchanged. The reachable-set invariant is kept. |
| Devices.SelectStepper | devices.py:79-84 | Motor number 1 gives stepper 1 and 2 gives stepper 2. Any other number is the invalid-motor error. |
| Devices.SelectDcMotor | devices.py:175-184 | Motor numbers 1 to 4 give DC motors 1 to 4, each motor tied to its own number in both directions. Any other number is the invalid-motor error. |
| Devices.Arm | devices.py:122-134 | A moving wheel is unchanged. Otherwise: a zero steps-per-revolution is a division error; the count times steps-per-revolution equals the revolutions, in absolute value; the direction is backward exactly when revolutions / steps-per-revolution < 1; the wheel is moving; the counter is kept; the wheel invariant is kept. |
| Devices.Tick | devices.py:152-161 | A wheel at rest is unchanged and issues nothing. A moving wheel with its counter below the count issues one step in its direction and advances the counter by one. At the count it issues a step and resets to rest with zero counters. Past the count it is unchanged and issues nothing. The invariant is kept. |
| Devices.Ticks | devices.py:149-161 | k ticks issue at most k steps, all in the wheel's direction, and keep the direction. A wheel at rest stays unchanged and issues nothing. |
| Devices.TicksBelowCount | devices.py:152-154 | Below a whole count, k ticks issue k steps in the wheel's direction and advance the counter by k. |
| Devices.WholeCountTakesOneExtraStep | devices.py:136-158 | A wheel armed with a whole count n is still moving after n ticks. After n+1 ticks it is at rest, with its counters reset and exactly n+1 steps issued. |
| Devices.StalledTickIsIdle | devices.py:152-161 | A moving wheel whose counter has passed its count does nothing on a tick. |
| Devices.StalledTicksAreIdle | devices.py:152-161 | Any number of ticks leaves such a wheel unchanged and issues no step. |
| Devices.FractionalCountNeverCompletes | devices.py:152-161 | With a non-whole count the wheel stays moving after any number of ticks, with its counter below count + 1. |
| Devices.OneRevolutionStalls | devices.py:122-134 | `move(1)` at 200 steps per revolution arms a backward count of 1/200. After any number of ticks one step has been issued and the wheel is still moving. |
| Devices.PillWheel.constructor | devices.py:76-93 | A new wheel is forward, with zero counters, not moving, and bound to the stepper its motor number selects. |
| Devices.PillWheel.Create | devices.py:79-84 | Construction fails with the invalid-motor error exactly when the motor number is not 1 or 2. Otherwise the wheel is idle on the selected stepper. |
| Devices.PillWheel.IsMoving | devices.py:95-96 | Returns the moving flag. |
| Devices.PillWheel.Setup | devices.py:98-101 | Logs a release and sets the direction to forward. Nothing else changes. |
| Devices.PillWheel.Move | devices.py:122-134 | The new wheel state is `Arm` of the old one. A zero steps-per-revolution fails and changes nothing. No step is issued. |
| Devices.PillWheel.MoveComplete | devices.py:136-139 | Resets both counters and clears the moving flag. |
| Devices.PillWheel.Loop | devices.py:152-161 | The new state is `Tick` of the old one, and the step it issues, if any, is appended to the log. |
| Devices.ComputeTimes | devices.py:216-228 | It fails with a division error exactly when mL = 1. Otherwise: full-rate time × (mL − 1) = sec-per-mL × 1000; dribble time × 1 = dribble sec-per-mL × 1000; the total is their sum. |
| Devices.Phase | devices.py:246-251 | `FullRate` exactly when elapsed < full-rate time. `Dribble` exactly when full-rate time ≤ elapsed < total. `Off` exactly when elapsed is at or past both. |
| Devices.ThrottleAt | devices.py:246-251 | The throttle is the full-rate throttle, the dribble throttle or 0, according to the phase. |
| Devices.PhasesMoveForward | devices.py:246-251 | With a non-negative dribble time, the phase never goes back as time advances: once off it stays off, and full rate later means full rate earlier. |
| Devices.FullRateTimeFallsWithVolume | devices.py:219-222 | Above 1 mL, a larger volume gets a strictly shorter full-rate time. |
| Devices.TenMillilitres | devices.py:219-228 | 10 mL at the default rates: 20000/9 ms at full rate and 300000 ms dribbling. |
| Devices.Deliver | devices.py:211-233 | A running pump is unchanged. Otherwise the volume is recorded. 1 mL fails with a division error and changes nothing else. Any other volume gives the old state with the volume recorded, the durations `ComputeTimes` gives, the start time `now` and running set. |
| Devices.LoopThrottle | devices.py:235-254 | When running, the throttle written is `ThrottleAt` of the time since the start: full rate, dribble or 0 by phase. It is 0 when the pump is not running. |
| Devices.RunningIsSticky | devices.py:189-254 | Once running, a pump stays running through any sequence of setup, delivery and loop requests, with its volume, durations and start time unchanged. |
| Devices.Handle | devices.py:200-254 | One request to the pump. A loop changes nothing. A setup sets the two rates and changes nothing else. A delivery gives `Deliver`'s new state. On a running pump only the rates can change. |
| Devices.HandleAll | devices.py:200-254 | A sequence of requests with no setup among them leaves both rates unchanged. |
| Devices.SecondsAgainstMilliseconds | devices.py:231-248 | 10 mL started at time 0 still gets the full-rate throttle at 2000 s and the dribble throttle at 302222 s. |
| Devices.Pump.constructor | devices.py:186-198 | A new pump has the default rates and zeroed durations, is not running, and keeps its two throttles. |
| Devices.Pump.Create | devices.py:175-184 | Construction fails with the invalid-motor error exactly when the motor number is outside 1 to 4. Otherwise the pump is idle on the selected motor. |
| Devices.Pump.IsRunning | devices.py:208-209 | Returns the running flag. |
| Devices.Pump.Setup | devices.py:200-206 | Writes throttle 0 and sets the two rates. Nothing else changes. |
| Devices.Pump.DeliverLiquid | devices.py:211-233 | The new state and the outcome are `Deliver` of the old state. No throttle is written. |
| Devices.Pump.Loop | devices.py:235-254 | Writes the throttle `LoopThrottle` gives at `now` and changes nothing else. |
| Components.Trunc | components.py:29-30 | `int()` truncates toward zero: the result lies within one of x, on the side of zero. |
| Components.InsetInside | components.py:38-45 | A point inside a rectangle shrunk by a non-negative margin is inside the rectangle. |
| Components.ButtonGeometry | components.py:38-45 | The outline sits at the truncated position. The border is the outline shrunk by 1, and the face is the border shrunk by the border width 2. |
| Components.PressedAfterEvent | components.py:50-59 | After one event the button is pressed exactly when the event is a button-down on the face, or it was pressed and the event is not a button-down or button-up. |
| Components.PressedAfter | components.py:49-59 | A batch with no button-down or button-up event leaves the press state as it was. When the last event is one, the button is pressed exactly when it is a button-down on the face. |
| Components.FaceInsideBorder | components.py:38-45 | A point on a button's face is on its border and on its outline. |
| Components.Clicks | components.py:50-55 | The callback count over a batch of events is at most the number of events. |
| Components.PressedIffLastPointerEventHit | components.py:49-59 | After a batch of events the button is pressed exactly when either the last button-down/up event is a button-down on the face, or there is no such event and it was already pressed. |
| Components.ClicksIffSomePress | components.py:50-55 | The callback runs at least once exactly when some event is a button-down on the face. |
| Components.ClicksAppend | components.py:50-55 | The callback count over two batches is the sum of their counts. |
| Components.Button.constructor | components.py:26-45 | Truncated position, the three rectangles of `ButtonGeometry`, not pressed, no calls yet. |
| Components.Button.Input | components.py:49-59 | After the loop, `pressed` is `PressedAfter` of the events. The callback was called once per button-down on the face, if there is a callback. |
| Components.FieldX | components.py:82 | `int(240 - width / 2)` truncates toward zero: (480 − width) div 2 for a width up to 480, and −((width − 480) div 2) above it. The field is centred to within one pixel, exactly for an even width. |
| Components.FieldBorder | components.py:94-95 | Shrinking the border rectangle by the border width gives back the input rectangle. |
| Components.InputField.constructor | components.py:80-98 | Centred x, the input and border rectangles, active, empty texts. |
| Components.InputField.SetLabelText | components.py:100-101 | Sets the label text only. |
| Components.InputField.SetUserText | components.py:103-104 | Sets the user text only. |
| Components.InputField.Input | components.py:106-110 | Afterwards the field is active exactly when it was active before or some event is a button-down inside it. It never becomes inactive. |
| Components.LoopAt | components.py:157-163 | The first `loop` records `now` as the start, and later ones keep the start. The callback is due exactly when a callback exists and at least `interval` has passed since the start. |
| Components.ResetAt | components.py:154-155 | `reset` at `now` sets the start to `now` and keeps the interval and callback. A `loop` at that same moment keeps the start and calls back exactly when there is a callback and the interval is ≤ 0. |
| Components.FirstLoopStartsTimer | components.py:157-163 | On the first `loop` the start becomes `now`, and the callback is called only for an interval ≤ 0. |
| Components.ResetRestartsInterval | components.py:154-161 | After `reset` at r, a `loop` at `now` calls back exactly when there is a callback and now ≥ r + interval. |
| Components.CallbacksOver | components.py:157-163 | Over a sequence of `loop` calls the callback runs at most once per call. |
| Components.KeepsFiring | components.py:157-163 | Once the interval has passed, every later `loop` calls back: the count equals the number of calls. |
| Components.NoCallbackNoCalls | components.py:161-163 | Without a callback no `loop` call ever calls back. |
| Components.OnLoopTimer.constructor | components.py:149-152 | Not started, with the given interval and callback. |
| Components.OnLoopTimer.Reset | components.py:154-155 | The new state is `ResetAt`: the start becomes `now`. |
| Components.OnLoopTimer.Loop | components.py:157-163 | The new state and the `called` result are `LoopAt` of the old state. The callback count grows by one exactly when it is called. |
| Components.OnLoopTimer.Destroy | components.py:165-166 | The timer is left exactly as it was. |
| Screens.PushHooks | screens.py:73-76 | `push` runs one hook on an empty stack and two otherwise. The first exits the old top, and the last enters the new screen. |
| Screens.PopHooks | screens.py:78-81 | `pop` on a non-empty stack runs one hook for a single screen and two otherwise. The first exits the top, and the second enters the screen below it. |
| Screens.PopVisits | screens.py:78-81 | Popping a non-empty stack exits its top once and enters the screen below it, if there is one. |
| Screens.DrainHooks | screens.py:90-93 | Emptying a stack runs no hook exactly when the stack is already empty. |
| Screens.DrainLength | screens.py:90-93 | Emptying a stack of n screens runs 2n − 1 hooks: n exits and n − 1 enters. |
| Screens.DrainExitsTopDown | screens.py:90-93 | Emptying a stack exits every screen exactly once, from the top down. |
| Screens.DrainEntersBelowTop | screens.py:90-93 | Emptying a stack re-enters every screen below the top exactly once, from the top down. |
| Screens.PushThenPopHooks | screens.py:73-81 | A push then a pop runs: exit the old top, enter the new screen, exit it, re-enter the old top. |
| Screens.ScreenManager.constructor | screens.py:41-42 | Empty stack, no hooks called. |
| Screens.ScreenManager.IsEmpty | screens.py:44-48 | True exactly when the stack is empty. |
| Screens.ScreenManager.EnterScreen | screens.py:50-52 | Calls `on_enter` on the top screen, or nothing on an empty stack. The stack is unchanged. |
| Screens.ScreenManager.ExitScreen | screens.py:54-56 | Calls `on_exit` on the top screen, or nothing on an empty stack. The stack is unchanged. |
| Screens.ScreenManager.Input | screens.py:58-61 | Dispatches `input` to the top screen only, or to nothing. The stack is unchanged. |
| Screens.ScreenManager.Update | screens.py:63-66 | Dispatches `update` to the top screen only, or to nothing. The stack is unchanged. |
| Screens.ScreenManager.Draw | screens.py:68-71 | Dispatches `draw` to the top screen only, or to nothing. The stack is unchanged. |
| Screens.ScreenManager.Push | screens.py:73-76 | The stack is the old one with the screen on top. The old top (if any) is exited, then the new screen is entered. |
| Screens.ScreenManager.Pop | screens.py:78-81 | On an empty stack: the stack error, with nothing changed. Otherwise: the top is removed, exited, and the new top (if any) entered. |
| Screens.ScreenManager.Set | screens.py:83-88 | The stack is exactly [screen], after the hooks of popping every old screen and then entering the new one. |
| Screens.ScreenManager.Clear | screens.py:90-93 | The stack is empty, after the hooks of popping every screen from the top down. |

## Left out

- `LoadCell` and the motor kit's I2C setup (`MotorControl`, `BaseDevice`). These are hardware I/O through drivers that are not part of this model.
- The first definition of `PillWheel.move` (devices.py:103-120). The second definition at devices.py:122 replaces it, so it never runs.
- `PillWheel.status` is left out. Building its string concatenates a str and an int, which raises `TypeError`.
- `PillWheel.loop` starts with `super(PillMotor, self).loop()`, which raises `TypeError` for a `PillWheel`. The model takes the body from devices.py:152 on.
- devices.py never imports `time`, so `time.time()` would raise `NameError`. The model takes the clock as the parameter `now` instead.
- `Pump.__liquid_count__` is never read or written after the constructor. It is kept as a field and left unchanged.
- The `transitions` library's internals are not modelled. That covers its generated `is_<state>` helpers, its callbacks, the exact exception type for an invalid trigger, and its handling of transitions whose source or destination is undeclared. None of the table's transitions with an undeclared source or destination can fire from a state reachable through the table's triggers. The `threading.Timer` import in fsm.py is unused.
- Fsm.Trigger, Fsm.ReachableExactly, Fsm.PillDispenser.Valid: the automatic `to_<state>()` triggers that `Machine` adds for every declared state (its default `auto_transitions=True`) are not modelled. They can move the dispenser to any declared state, so these cover only the fourteen triggers added with `add_transition`. The automatic triggers are left out because they are library behaviour, not the dispenser's table.
- Drawing, fonts, colours, image loading, the virtual keyboard and `InputField.update` are pygame rendering and are left out. `Rect.collidepoint` is the `Collides` predicate. `InputField`'s `justification` argument is never used.
- What a callback or a screen hook does is left out. Callbacks are counted and hooks are logged.
- The screen subclasses (`SplashScreen` and the rest of screens.py), db.py, main.py and the `__main__` blocks are left out. They are UI wiring, sqlite persistence and driver loops.
- IEEE floating-point rounding is left out: floats are modelled as exact reals. `OnLoopTimer.loop` reads the clock twice; the model reads it once, as `now`.
- Screens.ScreenManager.Set: it calls `Clear` rather than repeating the identical pop loop written out in `set`. The two loops are the same.
