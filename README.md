# Toy Controller — a verified model of its motion and control logic

The Toy Controller bridges a game mod and a Buttplug/Intiface device server. The
game reports a piston mode and a vibe mode over a websocket. The controller
turns those modes into commands for a linear actuator (strokes between a
configurable min and max position) and a vibrator (a strength per mode).
The user tunes speeds, strengths and the stroke range with sliders, and the
settings persist in a JSON config file.

This project models the sequential logic inside that GUI and async shell:

- `patterns.dfy` (module `Patterns`) covers the motion patterns of `config.py`.
  - Each pattern maps a cycle phase to a displacement in [0, 1].
  - Proved: range, anchor values, monotone segments, continuity of pattern_1, and the
    mirror law of the inverted variants.
  - `pattern_constant_freq` is included, with the clock reading as a parameter.
- `pose_tables.dfy` (module `PoseTables`) covers the static tables of
  `config.py`.
  - Tables: the per-mode presets, `POSE_PROFILES` and `CLIMAX_HASHES`.
  - Proved: the data invariants of those tables.
  - `Toy_Controller.py` never imports these tables. It keeps its own copy of
    the defaults, which `ConfigStore` and `Controller` carry.
- `decimal.dfy` (module `Decimal`) covers Python's `str(k)` and `int(s)` on
  ints, the conversions behind the config file's string keys.
  - Proved: `int(str(k)) == k`.
- `config_store.dfy` (module `ConfigStore`) covers `load_config` and
  `save_config` as functions on maps, with the file and JSON I/O stripped.
  - Proved: how a load merges the file over the defaults.
  - Proved: the unreadable-file fallback.
  - Proved: the abort on a key that `int` cannot read.
  - Proved: the save/load round trip.
- `devices.dfy` (module `Devices`) holds the devices, actuator handles and
  commands seen at the driver boundary.
- `workers.dfy` (module `Workers`) covers `piston_worker` and `vibe_worker`.
  - Each is a pure one-tick step function: the specification.
  - A run folds that step over a sequence of ticks. The commands sent form
    an output trace.
  - The classes `PistonWorker` and `VibeWorker` run the same loops in place,
    and are proved equal to the fold.
- `controller.dfy` (module `Controller`) models the module globals of
  `Toy_Controller.py` as the class `ControllerState`. Its methods:
  - the config load;
  - the four slider handlers;
  - the device partition and selection of `rescan_and_update_ui`;
  - the two device radio handlers;
  - the per-message mode update of the game listener.

The piston worker fixes its next target as soon as the move command returns,
before it sleeps off the stroke's travel time. A slider that
moves in between does not change that latched end. So the next stroke always
goes to the end latched before the slider moved, even when it now lies outside
the range. The stroke after it goes to the new min if the latched end equals
the new max, and to the new max otherwise. `Workers.RangeChangeLatchedEnd`
states this rule. Two cases show the lag:

- The max moves while the worker is heading for it. The next stroke goes to the
  old max, and the one after to the new max instead of the min
  (`Workers.RangeChangeLagsOneStroke`).
- The max is pulled below the latched min, which drags the min down with it.
  The next stroke still goes to the old min, above the new max
  (`Workers.StrokeLeavesRangeAfterMaxDropsBelowMin`).

While the range stays put, `Controller.PistonStaysInRange` shows that every
stroke stays inside it.

The vibe worker has a similar lag. It compares the target strength only with
the last strength it sent, whichever vibrator that went to. A rescan or a click
on a vibe device rebinds the vibrator without resetting that value. So a newly
bound vibrator gets no command while the mode's strength equals the last one
sent, and the vibrator bound before may keep a strength the mode no longer asks
for (`Workers.RebindKeepsStaleStrength`). While one vibrator stays bound, it
tracks the mode (`Workers.OneVibratorTracksTarget`).

The model keeps both behaviours, since the code does this.

## Model

| member | source | states |
|---|---|---|
| `Patterns.Pattern1` | config.py:23-32 | on a phase in [0, 1] the displacement is in [0, 1] |
| `Patterns.Pattern1Inverted` | config.py:34-35 | on a phase in [0, 1] the displacement is in [0, 1] |
| `Patterns.Pattern3` | config.py:40-44 | on a phase in [0, 1] the displacement is in [0, 1] |
| `Patterns.Pattern4` | config.py:46-50 | on a phase in [0, 1] the displacement is in [0, 1] |
| `Patterns.Pattern4Inverted` | config.py:52-53 | on a phase in [0, 1] the displacement is in [0, 1] |
| `Patterns.Pattern5` | config.py:55-59 | on a phase in [0, 1] the displacement is in [0, 1] |
| `Patterns.Pattern6` | config.py:61-76 | on a phase in [0, 1] the eased displacement is in [0, 1] |
| `Patterns.Frac` | config.py:80 | `x % 1.0` lies in [0, 1) and differs from x by a whole number |
| `Patterns.PatternConstantFreq` | config.py:78-81 | the clock-driven displacement is always in [0, 1], whatever the clock reads |
| `Patterns.Pattern1Anchors` | config.py:23-32 | pattern_1 is 1 at 0, 0 at 0.5, 0.3 at 0.75 and back to 1 at the end of the cycle |
| `Patterns.Pattern1Monotone` | config.py:24-32 | pattern_1 falls strictly on [0, 0.5] and rises strictly on [0.5, 1] |
| `Patterns.Pattern1Lipschitz` | config.py:24-32 | pattern_1 changes by at most 2.8 times the change in phase, so its segments join without jumps |
| `Patterns.InvertedPatternsMirror` | config.py:34-53 | each inverted pattern plus its base pattern is 1 at every phase; their extremes swap |
| `Patterns.PeakPatternsMaximum` | config.py:40-59 | pattern_3/4/5 never exceed 1 and reach 1 exactly at their peak 0.8/0.7/0.6 |
| `Patterns.PeakPatternsShape` | config.py:40-59 | pattern_3/4/5 start and end at 0, rise strictly up to the peak and fall strictly after it |
| `Patterns.Pattern6Anchors` | config.py:61-76 | pattern_6 is 1 at 0, 0 at 0.4 and 1 at the end of the cycle |
| `Patterns.Pattern6Monotone` | config.py:69-76 | pattern_6 falls strictly on [0, 0.4] and rises strictly on [0.4, 1] |
| `Patterns.ConstantFreqIsClockDriven` | config.py:78-81 | the constant-frequency pattern ignores the progress argument and repeats every 0.65 s of clock time |
| `PoseTables.Displacement` | config.py:85-102 | a profile's pattern yields a displacement in [0, 1] for every pattern except the sine one |
| `PoseTables.PoseProfilesWellFormed` | config.py:85-103 | every pose profile has 0 <= min_pos <= max_pos <= 1, and a positive cycle duration when it runs on the clock |
| `PoseTables.PoseTablesContents` | config.py:85-117 | the clock-driven poses are exactly Nipple Play, Clit Play and Stroking; the sine poses are Stroking and Dildo (Standing, Oral); every pose is named |
| `PoseTables.PosesAndClimaxesDisjoint` | config.py:85-117 | no animation hash is both a pose and a climax |
| `PoseTables.PresetTablesConsistent` | config.py:12-20 | modes 1 and 2 have both strengths; min strength <= strength; all strengths in [0, 1]; intervals positive; both ranges ordered in [0, 1] |
| `Decimal.NatToStr` | Toy_Controller.py:43-44 | `str(n)` is a non-empty string of digits without a leading zero |
| `Decimal.IntToStr` | Toy_Controller.py:43-44 | `str(k)` starts with a minus sign exactly when k is negative |
| `Decimal.ParseInt` | Toy_Controller.py:71 | `int(s)` succeeds only on non-empty input, and a negative result comes from a leading minus |
| `Decimal.DigitsValueOfNatToStr` | Toy_Controller.py:43-44 | reading back the digits of n gives n |
| `Decimal.ParseIntOfIntToStr` | Toy_Controller.py:71 | `int(str(k)) == k` for every int k |
| `Decimal.IntToStrInjective` | Toy_Controller.py:43-44 | distinct ints print as distinct keys, so stringifying loses no entry |
| `ConfigStore.StrKeyed` | Toy_Controller.py:43-44 | the saved object's keys are the printed int keys, each with its int key's value |
| `ConfigStore.SaveConfig` | Toy_Controller.py:41-53 | every saved map key reads back with `int` as a key of the settings, with that key's value; the range is saved under "min" and "max" |
| `ConfigStore.IntKeyed` | Toy_Controller.py:71 | a failed conversion names a key of the file that `int` cannot read |
| `ConfigStore.LoadConfig` | Toy_Controller.py:61-89 | a successful load holds every default mode; a load never loses a default mode the settings had; an aborted load names a key `int` cannot read |
| `ConfigStore.IntKeyedKeys` | Toy_Controller.py:71-77 | the int conversion succeeds iff every key reads as an int, and then its keys are those ints; otherwise it names the first bad key |
| `ConfigStore.LoadFallbacks` | Toy_Controller.py:61-89 | a missing or unparsable file keeps the settings and writes them back; an aborted load leaves vibe strengths and range alone |
| `ConfigStore.LoadOverlaysDefaults` | Toy_Controller.py:69-83 | after a load each map's keys are the default keys plus the file's; file values win and other defaults survive; a bound present in the file is taken, a missing one falls back to 0.0 or 0.8 |
| `ConfigStore.LoadRejectsBadKey` | Toy_Controller.py:70-72 | a piston-speed key that `int` cannot read aborts the load before any assignment, naming a bad key |
| `ConfigStore.LoadRejectsBadVibeKey` | Toy_Controller.py:70-77 | with the piston-speed keys readable, a bad vibe-strength key aborts the load after the piston speeds are merged over the defaults, with everything else untouched |
| `ConfigStore.ListedEntriesArePrinted` | Toy_Controller.py:43-44 | every item of a saved map is a printed key of the map with its value |
| `ConfigStore.IntKeyedOfPrinted` | Toy_Controller.py:71 | reading back printed entries recovers the map restricted to the listed keys |
| `ConfigStore.SaveLoadRoundTrip` | Toy_Controller.py:41-83 | save then load gives the saved settings, with any default key they lack filled in |
| `ConfigStore.SaveLoadIdentity` | Toy_Controller.py:41-83 | save then load is the identity when the saved maps hold every default key, which every reachable state of the globals does |
| `Workers.TruncToInt` | Toy_Controller.py:180 | `int(x)` truncates toward zero: it is the integer next to x on the side of zero |
| `Workers.Interval` | Toy_Controller.py:179 | the mode's interval, 1.0 s for an unknown mode, positive whenever the map's intervals are |
| `Workers.StrokeDurationMs` | Toy_Controller.py:180 | the whole milliseconds of a non-negative interval, fraction dropped |
| `Workers.PistonStep` | Toy_Controller.py:175-195 | a tick sends a move exactly when an actuator is bound and the mode is on or homing is pending; silent ticks change nothing; a failing command keeps the target and backs off 1 s |
| `Workers.PistonRun` | Toy_Controller.py:175-195 | a run sends at most one command per tick and sleeps once per tick |
| `Workers.PistonRunAppend` | Toy_Controller.py:175 | running two stretches of ticks in turn is running their concatenation |
| `Workers.CyclingStep` | Toy_Controller.py:177-182 | a cycling tick moves to the current stroke end over int(interval*1000) ms, sleeps interval, and heads for the other end |
| `Workers.CyclingAlternates` | Toy_Controller.py:173-182 | while the mode is on, strokes start at max and alternate max/min, each lasting int(interval*1000) ms and followed by a sleep of interval; the worker is no longer homed |
| `Workers.StrokesAlternate` | Toy_Controller.py:181 | with min != max no two consecutive strokes go to the same position |
| `Workers.HomesOnce` | Toy_Controller.py:183-190 | when the mode drops to 0 after cycling, exactly one move to 0.5 over 700 ms is sent; the worker is then homed with target max |
| `Workers.HomedStaysSilent` | Toy_Controller.py:183-190 | a homed worker sends nothing while the mode stays 0 |
| `Workers.CycleThenHome` | Toy_Controller.py:172-190 | from the start state, cycling then idling sends the alternating strokes followed by one home command |
| `Workers.RangeChangeLagsOneStroke` | Toy_Controller.py:179-181 | when the max moves while the worker is heading for it, the next stroke goes to the old max and the one after to the new max |
| `Workers.RangeChangeLatchedEnd` | Toy_Controller.py:179-181 | after any range change, the next stroke goes to the end latched before it; the one after goes to the new min if that end equals the new max, else to the new max |
| `Workers.StrokeLeavesRangeAfterMaxDropsBelowMin` | Toy_Controller.py:179-181 | with the max pulled below the latched min, the next stroke goes to the old min, above the new max |
| `Workers.TargetStrength` | Toy_Controller.py:201 | the mode's strength, 0.0 for an unknown mode, in [0, 1] (so never the initial -1.0) whenever the map's strengths are |
| `Workers.VibeStep` | Toy_Controller.py:199-209 | a tick sends VIBE_STRENGTH_MAP.get(mode, 0.0) exactly when a vibrator is bound and that differs from the last sent; last sent changes only on a delivered command |
| `Workers.VibeRun` | Toy_Controller.py:199-209 | a run sends at most one command per tick and records one sleep per tick, 0.1 s, or 0.0 only on a tick whose command raises |
| `Workers.VibeStepIdempotent` | Toy_Controller.py:201-204 | repeating a delivered tick sends nothing |
| `Workers.VibeRunNoRepeats` | Toy_Controller.py:198-205 | without failures no strength is sent twice in a row, and the last sent value is the last command's strength |
| `Workers.VibeRunTracksTarget` | Toy_Controller.py:198-205 | from the start (last sent -1.0), after a delivered tick with a vibrator bound, the last command sent carries the current mode's strength, whichever vibrator it went to |
| `Workers.VibeRunSendsTo` | Toy_Controller.py:201-203 | while only vibrator `a` is ever bound, every command goes to `a` |
| `Workers.OneVibratorTracksTarget` | Toy_Controller.py:198-205 | while one vibrator stays bound, the last command it received is the current mode's strength |
| `Workers.RebindKeepsStaleStrength` | Toy_Controller.py:201-203 | after a rebind the last sent strength is not reset: a vibrator bound again gets no command and keeps a strength the mode no longer asks for |
| `Workers.PistonWorker.constructor` | Toy_Controller.py:173-174 | the worker starts homed, heading for the max |
| `Workers.PistonWorker.Tick` | Toy_Controller.py:176-195 | one loop pass updates is_homed, the target and the trace as PistonStep does |
| `Workers.PistonWorker.Run` | Toy_Controller.py:175-195 | the loop over a sequence of ticks ends in the state, trace and sleeps of PistonRun |
| `Workers.VibeWorker.constructor` | Toy_Controller.py:198 | last sent strength starts at -1.0 |
| `Workers.VibeWorker.Tick` | Toy_Controller.py:200-209 | one loop pass updates the last sent strength and the trace as VibeStep does |
| `Workers.VibeWorker.Run` | Toy_Controller.py:199-209 | the loop over a sequence of ticks ends in the state, trace and sleeps of VibeRun |
| `Controller.Serves` | Toy_Controller.py:278-282 | the device test that `Capable`'s contract uses: a device listed for a kind is not removed and has an actuator of that kind, so its slot 0 exists |
| `Controller.Capable` | Toy_Controller.py:275-282 | a device is listed for a kind iff it is not removed and has an actuator of that kind |
| `Controller.ChooseIndex` | Toy_Controller.py:286-292 | with devices, the choice keeps a previous choice that is still listed and otherwise is the first listed index; without devices the choice is untouched |
| `Controller.NoneServing` | Toy_Controller.py:275-282 | with no device serving a kind, the list of that kind is empty |
| `Controller.FirstCapableIsFirstServing` | Toy_Controller.py:277-291 | the first listed device of a kind is the first registry device that serves it |
| `Controller.SelectionRule` | Toy_Controller.py:275-304 | against the raw registry: when some device serves the kind, the chosen index belongs to such a device; a still-serving previous choice is kept |
| `Controller.SelectionFallsBackToFirst` | Toy_Controller.py:289-292 | a previous choice naming no serving device gives way to the first registry device that serves the kind |
| `Controller.Binding` | Toy_Controller.py:293-294 | no binding exactly when no device serves the kind; otherwise slot 0 of the right kind on the chosen device, which is listed when the choice is |
| `Controller.ModesOf` | Toy_Controller.py:226-227 | a present field is taken as the mode, a missing one reads as 0 |
| `Controller.PistonStaysInRange` | Toy_Controller.py:177-188 | on the globals' snapshot, while the range stays put, a target inside it stays inside and every stroke with the mode on lands inside it |
| `Controller.VibeSendsValidSpeeds` | Toy_Controller.py:201-204 | on the globals' snapshot with strengths in [0, 1], every command is a valid speed, and the first tick with a vibrator bound sends |
| `Controller.ControllerState.constructor` | Toy_Controller.py:16-38 | the globals start with the built-in defaults, so every default mode is present, modes 0, nothing bound and no devices |
| `Controller.ControllerState.LoadConfig` | Toy_Controller.py:61-89 | the globals become the settings load_config computes from the old globals and the file; every default mode stays present |
| `Controller.ControllerState.OnSpeedSliderChange` | Toy_Controller.py:432-436 | one mode's interval is replaced in place; every default mode stays present |
| `Controller.ControllerState.OnVibeStrengthSliderChange` | Toy_Controller.py:460-464 | one mode's strength is replaced in place; every default mode stays present; a slider value in [0, 1] keeps all strengths in [0, 1] |
| `Controller.ControllerState.OnMinPosChange` | Toy_Controller.py:438-447 | min becomes v and max is raised to v only if v exceeds it; afterwards min <= max, and a unit range stays a unit range |
| `Controller.ControllerState.OnMaxPosChange` | Toy_Controller.py:449-458 | max becomes v and min is lowered to v only if v falls below it; afterwards min <= max, and a unit range stays a unit range |
| `Controller.ControllerState.Rescan` | Toy_Controller.py:275-304 | both device lists are rebuilt by capability, each choice follows the selection rule, slot 0 of the chosen device is bound (none without devices), and the bindings are valid |
| `Controller.ControllerState.RebuildDeviceLists` | Toy_Controller.py:275-282 | the clear-and-refill loop yields exactly the capable devices of each kind, in registry order |
| `Controller.ControllerState.BindLinear` | Toy_Controller.py:285-294 | the piston choice follows the selection rule and the linear binding is a listed device's linear actuator or none |
| `Controller.ControllerState.BindVibrator` | Toy_Controller.py:295-304 | the vibe choice follows the selection rule and the vibrator binding is a listed device's vibrator or none |
| `Controller.ControllerState.OnPistonDeviceSelected` | Toy_Controller.py:411-416 | a listed device is bound; an unlisted index leaves the binding alone; valid bindings stay valid |
| `Controller.ControllerState.OnVibeDeviceSelected` | Toy_Controller.py:418-423 | a listed device is bound; an unlisted index leaves the binding alone; valid bindings stay valid |
| `Controller.ControllerState.OnGameMessage` | Toy_Controller.py:224-233 | the change flag is set exactly when either incoming mode differs; missing fields read as 0; the modes end equal to the message's |

## Left out

- `pattern_2` (config.py:37-38) is not modelled, because it uses `math.sin`, which real arithmetic here does not provide. `PoseTables.Displacement` returns None for it.
- `time.monotonic()` in `pattern_constant_freq` is not read. The clock reading is the parameter `now`.
- Floating point is not modelled. Every float is an exact real.
- The sliders' `round(value, 1)` and `round(value, 2)` are not modelled. The handlers take values that are already rounded.
- The Flet UI is not modelled. This covers `PulsingManager`, widget construction, labels, colours and `page.update()`. It is presentation only.
- The websocket connection loop of the game listener is not modelled, and neither is its reconnect. Only the per-message mode update is.
- `json.loads` of a game message is not modelled. A message is a map from field names to ints.
- The Intiface client is not modelled. This covers connect, scanning, retry, `intiface_manager`, `periodic_scanner` and the cleanup on disconnect. They are foreign library calls and asyncio task management.
- A rescan takes the client's device registry as a sequence parameter.
- Actuator commands are not real calls. They form an output trace of `Command` values.
- A command that raises is modelled by the `fails` flag of a tick.
- File and JSON I/O of the config are not modelled, beyond their outcomes.
  - Opening the file can fail with FileNotFoundError, parsing can fail with JSONDecodeError, or the file parses. `FileRead` has one case for each.
  - A parsed object's items are a sequence in file order.
  - The file is assumed to hold numbers where numbers are expected.
  - `ConfigFile` assumes a top-level JSON object, and objects under `piston_speed`, `vibe_strength` and `piston_range`. Any other value raises AttributeError, which escapes load_config (Toy_Controller.py:70, 76 and 81-83). So does any OSError other than FileNotFoundError. Neither escape is modelled.
  - An error while writing the file is not modelled, since it is only logged.
- `int(k)` on keys is modelled for an optional sign followed by ASCII digits. Surrounding whitespace, underscores and non-ASCII digits are not accepted by the model.
- A ValueError from `int(k)` escapes load_config. This is the `BadKey` outcome, which keeps the assignments made before it.
- `asyncio.sleep` is not modelled. Each loop iteration is one tick, and the requested sleep is recorded as data.
- Cancellation and `is_shutting_down` are not modelled. A run is a finite sequence of ticks.
- Shared state between the workers and the handlers is read once per tick (the snapshots of `ControllerState`). An update that lands inside a tick is not modelled. The piston range is read as it stands when the command returns.
- Two registry devices with the same index are not modelled. The Python dicts would keep one entry at the first position, while the device lists here would keep both.
- `Capable`'s order matches the dict's insertion order only when indices are distinct.
- `VIBE_MIN_STRENGTH_MAP`, the `VIBE_AS_PISTON_*` values and the pose tables are data only. `Toy_Controller.py` never uses them, so no behaviour is attached to them.
- A config with a key that `int` cannot read does not fall back to the defaults: the load aborts (`BadKey`). Only a missing or unparsable file, or a missing key, falls back.
- The modes are not reset by anything modelled here. The disconnect handler is not part of this model.
