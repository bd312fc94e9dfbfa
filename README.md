# ROSBuzz UAV closures: a Dafny model of the command/telemetry bridge

`src/buzzuav_closures.cpp` connects a Buzz swarm script to the flight stack of a
single drone. It keeps a few static variables:

- the goal position `goto_pos`;
- the remote-control destination `rc_goto_pos`;
- the current position `cur_pos`;
- the battery reading `batt` and the five obstacle ranges `obst`;
- the flight status byte;
- the primary command code `cur_cmd` and its one-shot marker `buzz_cmd`;
- the remote-control command `rc_cmd`;
- the desired height.

Three kinds of code act on this state. Script closures (takeoff, land, gohome,
arm, disarm, moveto, goto) check their Buzz arguments and then overwrite the
pending command. Dispatcher accessors read the command (`getcmd`, `getgoto`),
consume the marker (`bzz_cmd`) and overwrite telemetry (`set_battery`,
`set_currentpos`, ...). Telemetry publishers copy fields into named Buzz tables
in the VM's global namespace.

The model has five modules:

- `BuzzValues` (`buzz_values.dfy`): the Buzz objects a closure sees, tables,
  the global symbol table, argument errors. `PutAll` models a run of
  `dup; pushs; push; tput` and `Store` models `gstore`.
- `CommandCodes` (`command_codes.dfy`): the `MAV_CMD` values of
  `mavros_msgs::CommandCode` (NAV_WAYPOINT 16, NAV_RETURN_TO_LAUNCH 20,
  NAV_LAND 21, NAV_TAKEOFF 22, COMPONENT_ARM_DISARM 400). It also holds the
  table from each action to its (code, marker) pair. Disarm is ARM + 1, as
  the source writes it.
- `CommandSpec` (`command_spec.dfy`): the static state as a value, and every
  operation as a function from the old state to the new one. An argument
  check that fails returns `Fail` with the state unchanged. `OnlyChanged`
  says which fields an operation may write.
- `BuzzuavClosures` (`buzzuav_closures.dfy`): class `UavState`. Its array
  fields are the static buffers and its scalar fields are the static scalars.
  There is one method per closure, accessor and setter. Each method that
  changes state is proved to have exactly the effect of a `CommandSpec`
  function: the one of the same name, or `CommandSpec.Issue` for `Arm`,
  `Disarm`, `Land` and `Gohome`. `GetGoto` and `GetCmd` are plain reads
  with no counterpart. The three read-only publishers are functions that
  read the arrays.
- `CommandTraces` (`command_traces.dfy`): any interleaving of calls as a
  sequence. It proves that the last issued command wins, that each one-shot
  field is delivered once, and that telemetry never writes the goal, the
  desired height or the command. In the other direction, the script writes
  one telemetry-side field: the absolute goto overwrites the altitude of the
  remote-control destination.

`sqrt`, `atan2` and the horizontal part of the great-circle formula are
uninterpreted (`CommandSpec.Numerics`). The model keeps the one exact rule of
`gps_from_rb`: the output altitude is the desired height.

Behaviour worth knowing:

- `rc_goto` is published as a global of its own, next to `flight`
  (src/buzzuav_closures.cpp:312-328).
- Only takeoff sets the desired height. The absolute goto reads it but does not
  set it. It also overwrites `rc_goto_pos[2]` with it
  (src/buzzuav_closures.cpp:114).
- `gps_from_rb` neither clamps latitude nor guards against NaN
  (src/buzzuav_closures.cpp:72-80).

## Model

| member | source | states |
|---|---|---|
| `BuzzValues.PutAll` | src/buzzuav_closures.cpp:216-228 | a run of table puts writes every key it names; the last put of a key decides its value; keys nobody puts keep their old value |
| `BuzzValues.Store` | src/buzzuav_closures.cpp:229 | `gstore` binds the table to its global name and leaves every other global as it was |
| `CommandCodes.CodeTable` | src/buzzuav_closures.cpp:125-165 | distinct actions get distinct command codes, none of them idle; disarm's code is arm's + 1; every marker lies in 1..4 |
| `CommandCodes.MarkerClasses` | src/buzzuav_closures.cpp:125-165 | two actions share a marker exactly when they are equal or both among takeoff, land and gohome |
| `CommandSpec.Issue` | src/buzzuav_closures.cpp:125-136 | issuing an action overwrites the pending (code, marker) pair with that action's pair and changes nothing else |
| `CommandSpec.GpsFromRb` | src/buzzuav_closures.cpp:72-80 | the destination's altitude is the desired height; its latitude and longitude come from the forward formula applied to the current position |
| `CommandSpec.Moveto` | src/buzzuav_closures.cpp:90-108 | accepted exactly when there are two float arguments; each failing check gives its own error and leaves the state unchanged; on success the goal is the range/bearing destination at the desired height, the waypoint command is pending, and only the goal and the command change |
| `CommandSpec.Goto` | src/buzzuav_closures.cpp:113-120 | the remote-control altitude becomes the desired height; the goal equals the remote-control destination; the waypoint command is pending; nothing else changes |
| `CommandSpec.Takeoff` | src/buzzuav_closures.cpp:141-151 | accepted exactly when there is one float argument; a failing check leaves the state unchanged; on success the goal altitude and the desired height are the argument, the goal's latitude and longitude keep their values, and the takeoff command is pending |
| `CommandSpec.SetGoto` | src/buzzuav_closures.cpp:179-184 | the goal becomes the first three values of `pos`; nothing else changes |
| `CommandSpec.BzzCmd` | src/buzzuav_closures.cpp:186-190 | returns the pending marker and clears it to idle; the code, the goal and all other fields keep their values |
| `CommandSpec.RcSetGoto` | src/buzzuav_closures.cpp:192-197 | the remote-control destination becomes the first three values of `pos`; nothing else changes |
| `CommandSpec.RcCall` | src/buzzuav_closures.cpp:198-200 | the remote-control command becomes the argument; nothing else changes |
| `CommandSpec.SetObstacleDist` | src/buzzuav_closures.cpp:202-205 | the obstacle ranges become the first five values of `dist`; nothing else changes |
| `CommandSpec.SetBattery` | src/buzzuav_closures.cpp:207-211 | the battery becomes (voltage, current, remaining); nothing else changes |
| `CommandSpec.SetCurrentPos` | src/buzzuav_closures.cpp:235-239 | the current position becomes (latitude, longitude, altitude); nothing else changes |
| `CommandSpec.FlightStatusUpdate` | src/buzzuav_closures.cpp:291-293 | the status byte becomes the argument; nothing else changes |
| `CommandSpec.PositionTable` | src/buzzuav_closures.cpp:241-258 | the table built by the puts has exactly the keys latitude, longitude and altitude, bound to the three coordinates in order |
| `CommandSpec.BatteryTable` | src/buzzuav_closures.cpp:213-231 | the table built by the puts has exactly the keys voltage, current and capacity, bound to `batt[0..2]` |
| `CommandSpec.ObstacleTable` | src/buzzuav_closures.cpp:264-289 | the table built by the puts has exactly the keys bottom, front, right, back and left, bound to `obst[0..4]` |
| `CommandSpec.FlightTable` | src/buzzuav_closures.cpp:300-311 | the table built by the puts has exactly the keys rc_cmd and status, bound to the two values |
| `CommandSpec.UpdateFlightStatus` | src/buzzuav_closures.cpp:300-330 | `flight` reports the remote-control command as it was before the call, and the status; `rc_goto` reports the remote-control destination; the remote-control command is cleared to 0; no other field or global changes |
| `BuzzuavClosures.UavState.constructor` | src/buzzuav_closures.cpp:15-24 | every buffer, code and the desired height start at zero |
| `BuzzuavClosures.UavState.GpsFromRb` | src/buzzuav_closures.cpp:72-80 | writes the destination into `out`; its altitude is the desired height |
| `BuzzuavClosures.UavState.Moveto` | src/buzzuav_closures.cpp:90-108 | outcome and new state are those of `CommandSpec.Moveto` |
| `BuzzuavClosures.UavState.Goto` | src/buzzuav_closures.cpp:113-120 | new state is that of `CommandSpec.Goto`; afterwards the goal equals the remote-control destination, whose altitude is the desired height |
| `BuzzuavClosures.UavState.Arm` | src/buzzuav_closures.cpp:125-130 | sets (ARM, 3) and nothing else |
| `BuzzuavClosures.UavState.Disarm` | src/buzzuav_closures.cpp:131-136 | sets (ARM + 1, 4) and nothing else |
| `BuzzuavClosures.UavState.Takeoff` | src/buzzuav_closures.cpp:141-151 | outcome and new state are those of `CommandSpec.Takeoff` |
| `BuzzuavClosures.UavState.Land` | src/buzzuav_closures.cpp:153-158 | sets (NAV_LAND, 1) and nothing else |
| `BuzzuavClosures.UavState.Gohome` | src/buzzuav_closures.cpp:160-165 | sets (NAV_RETURN_TO_LAUNCH, 1) and nothing else |
| `BuzzuavClosures.UavState.GetGoto` | src/buzzuav_closures.cpp:171-173 | returns the goal buffer itself, of length 3, without changing anything |
| `BuzzuavClosures.UavState.GetCmd` | src/buzzuav_closures.cpp:175-177 | returns the primary code and clears nothing |
| `BuzzuavClosures.UavState.SetGoto` | src/buzzuav_closures.cpp:179-184 | new state is that of `CommandSpec.SetGoto`, also when `pos` is one of the object's own buffers |
| `BuzzuavClosures.UavState.BzzCmd` | src/buzzuav_closures.cpp:186-190 | result and new state are those of `CommandSpec.BzzCmd` |
| `BuzzuavClosures.UavState.RcSetGoto` | src/buzzuav_closures.cpp:192-197 | new state is that of `CommandSpec.RcSetGoto` |
| `BuzzuavClosures.UavState.RcCall` | src/buzzuav_closures.cpp:198-200 | new state is that of `CommandSpec.RcCall` |
| `BuzzuavClosures.UavState.SetObstacleDist` | src/buzzuav_closures.cpp:202-205 | the loop copies the five ranges in index order; new state is that of `CommandSpec.SetObstacleDist` |
| `BuzzuavClosures.UavState.SetBattery` | src/buzzuav_closures.cpp:207-211 | new state is that of `CommandSpec.SetBattery` |
| `BuzzuavClosures.UavState.SetCurrentPos` | src/buzzuav_closures.cpp:235-239 | new state is that of `CommandSpec.SetCurrentPos` |
| `BuzzuavClosures.UavState.FlightStatusUpdate` | src/buzzuav_closures.cpp:291-293 | new state is that of `CommandSpec.FlightStatusUpdate` |
| `BuzzuavClosures.UavState.UpdateBattery` | src/buzzuav_closures.cpp:213-231 | global `battery` becomes {voltage, current, capacity} = `batt[0..2]`; other globals and all fields unchanged |
| `BuzzuavClosures.UavState.UpdateCurrentPos` | src/buzzuav_closures.cpp:241-258 | global `position` becomes {latitude, longitude, altitude} = `cur_pos[0..2]`; other globals and all fields unchanged |
| `BuzzuavClosures.UavState.UpdateObstacle` | src/buzzuav_closures.cpp:264-289 | global `obstacle` becomes {bottom, front, right, back, left} = `obst[0..4]`; other globals and all fields unchanged |
| `BuzzuavClosures.UavState.UpdateFlightStatus` | src/buzzuav_closures.cpp:300-330 | `rc_cmd` goes into the table before it is cleared; globals and new state are those of `CommandSpec.UpdateFlightStatus` |
| `CommandTraces.StepCommand` | src/buzzuav_closures.cpp:104-190 | an accepted closure leaves its action pending; `bzz_cmd` clears the marker and keeps the code; every other call leaves both alone |
| `CommandTraces.StepSeparation` | src/buzzuav_closures.cpp:192-330 | telemetry calls keep the goal, the height and the command; all other calls keep battery, obstacles, position, status and the remote-control command, and keep the remote-control destination except that goto overwrites its altitude; only `rc_call` makes that command non-zero; only an accepted takeoff changes the height |
| `CommandTraces.LastWriterWins` | src/buzzuav_closures.cpp:104-163 | after any run, the primary channel holds the (code, marker) of the last issuing call, if no `bzz_cmd` came after it; earlier unconsumed commands are lost |
| `CommandTraces.CodeOutlivesMarker` | src/buzzuav_closures.cpp:175-190 | `getcmd` keeps reporting the last issued code, however many `bzz_cmd` calls follow |
| `CommandTraces.NoIssueKeepsCommand` | src/buzzuav_closures.cpp:171-211 | a run with no issuing call keeps the code; it keeps the marker too unless a `bzz_cmd` clears it |
| `CommandTraces.MarkerDeliveredOnce` | src/buzzuav_closures.cpp:186-190 | after `bzz_cmd`, the next `bzz_cmd` returns idle unless a closure issued a command in between |
| `CommandTraces.TelemetryKeepsCommand` | src/buzzuav_closures.cpp:192-293 | any run of telemetry setters and flight-status publishes keeps the goal, the desired height, the code and the marker |
| `CommandTraces.CommandsKeepTelemetry` | src/buzzuav_closures.cpp:90-190 | any run of closures and command accessors keeps battery, obstacles, current position, status and the remote-control command; it keeps the remote-control latitude and longitude, and the whole remote-control destination when the run has no goto |
| `CommandTraces.HeightFromLastTakeoff` | src/buzzuav_closures.cpp:141-151 | the desired height is the altitude of the last accepted takeoff |
| `CommandTraces.HeightWithoutTakeoff` | src/buzzuav_closures.cpp:141-151 | without an accepted takeoff the desired height never changes |
| `CommandTraces.RcCommandStaysClear` | src/buzzuav_closures.cpp:198-330 | once the remote-control command is 0, no call other than `rc_call` makes it non-zero again |
| `CommandTraces.RcCommandReportedOnce` | src/buzzuav_closures.cpp:300-308 | after a flight-status publish, `rc_cmd` stays 0 and the next publish puts `rc_cmd` 0 (with the current status) into the `flight` table, until a new `rc_call` |
| `CommandTraces.GotoUsesRcDestination` | src/buzzuav_closures.cpp:113-120 | `rc_set_goto(p)` then goto makes the goal (p0, p1, height) with the waypoint command pending; the next flight publish shows that altitude in `rc_goto` |
| `CommandTraces.TakeoffThenMoveto` | src/buzzuav_closures.cpp:90-151 | takeoff(10) then moveto(3, 4): height stays 10, waypoint is pending, and the goal comes from range sqrt(25) and bearing atan2(4, 3) |
| `CommandTraces.ArmThenDisarm` | src/buzzuav_closures.cpp:125-136 | arm then disarm leaves (ARM + 1, 4): the arm is lost |

## Left out

- `sqrt`, `atan2` and the spherical trigonometry of `gps_from_rb` are uninterpreted functions. So the model cannot show that range 0 gives back the current position, or that the great-circle distance to the destination equals the range.
- `CommandSpec.GpsFromRb`: does not model `float`/`double` precision. Positions, battery values and obstacle ranges are reals, because the code only copies them. The `float` conversions of `dx`, `dy` and `height` are not modelled.
- Buzz VM stack handling (`lload`, `stack_at`, `pusht`, `ret0`, the `vm->state` return value) is not modelled. Arguments are a sequence of Buzz objects. The assertion macros become an `ArgError` result. A publisher's effect is the new global map.
- Error message text and the VM error state are reduced to the `ArgError` value.
- `buzzros_print` is logging through ROS_INFO, and every `printf` is a diagnostic. Neither is modelled.
- `buzzuav_update_prox` is left out: its body is commented out. `dummy_closure` is left out: it does nothing.
- The hard-coded `hcpos1`..`hcpos3` arrays are never used.
- Concurrency: the model is sequential, matching the single-threaded interleaving the code assumes.
- `getgoto` returns the goal buffer itself, so a caller could write through it. The model returns the array but does not model such writes.
