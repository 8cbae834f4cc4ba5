# Sheikah car: camera gimbal and drive controller, modelled in Dafny

This project models the two stateful controllers of a small robot car.

- **Camera** (`camera.dfy`) covers the camera side.
  - `ServoControl` is the proportional pan/tilt tracker. The pixel error from the integer frame centre is divided by the gain 75. The result is subtracted from the remembered angle. The new angle is then clamped to pan [0, 180] or tilt [-5, 30] and remembered.
  - `CameraController` is the gimbal driver. It validates an axis and an angle, updates both copies of the angle state, and sends the servo call: pan goes to channel 0 unchanged, tilt goes to channel 1 as `tilt + 90`.
  - It also composes the tracker and the driver (`TrackObject`) and holds the two-state streaming guard.
  - `GridFrame` is the grid-painting loop of the simulated camera.
- **Movement** (`movement.dfy`) is the drive controller. `Move` records the command time, direction and speed, then dispatches to one drive primitive. `WatchdogTick` is one tick of the watchdog: it issues a stop when more than 5 seconds have passed since the last command. The watchdog loop has no exception handler, so a stop that raises there ends it for good.

Calls into the hardware drivers are recorded in ghost command logs: `servoLog` for servo angles, `driveLog` for drive primitives. The global hardware flag is a constructor parameter: hardware is used only when it is available and its set-up does not raise. Whether a servo call raises is a method parameter. Time is a parameter too. Angles are exact reals.

Two behaviours of the code differ from what a cleaner design would do, and the model keeps them as written:

- `Move` overwrites the command time, direction and speed before it rejects an unknown direction, so a rejected move still re-arms the watchdog.
- The watchdog only issues a stop primitive. It does not set the direction to 'stop' or the speed to 0.

Speeds are stored and forwarded without any range check.

The central proof is `Camera.IterateClosedForm`. It shows that n repeated tracking steps towards the same target equal one clamp of n accumulated corrections. The lemmas for monotonic movement, reaching the bound and staying pinned at the bound follow from it.

## Model

| member | source | states |
|---|---|---|
| `Camera.Clamp` | modules/camera.py:62-64 | the clamped value lies in [lo, hi]; it is the input when the input is in range, lo below and hi above |
| `Camera.StepAxis` | modules/camera.py:51-64 | one tracking step stays in range; a centred target leaves an in-range angle unchanged; a positive error never raises the angle and a negative one never lowers it |
| `Camera.CentredKeepsAngle` | modules/camera.py:52-64 | a target at the integer frame centre leaves any in-range angle as it is |
| `Camera.IterateClosedForm` | modules/camera.py:59-70 | n successive steps from an in-range angle equal the angle minus n corrections, clamped once (the remembered angle integrates the error) |
| `Camera.IterateMonotone` | modules/camera.py:59-67 | repeating the same off-centre input moves the angle in one direction only: never up for a positive error, never down for a negative one |
| `Camera.IterateReachesBound` | modules/camera.py:59-67 | once n corrections cover the distance to a bound, the angle sits on that bound (lower for a positive error, upper for a negative one) |
| `Camera.PinnedAtBound` | modules/camera.py:62-67 | an angle that has reached the bound it is pushed against stays there on every later step |
| `Camera.BottomRightExample` | modules/camera.py:52-64 | from (90, -5), the target (480, 360) in 640x480 gives (90 - 160/75, -5): tilt is clamped at its floor |
| `Camera.TestScriptTopLeft` | test_loborobot.py:129-131 | from (90, -5), the top-left target (160, 120) gives (90 + 160/75, -3.4) |
| `Camera.TestScriptBottomRight` | test_loborobot.py:133-135 | the bottom-right target (480, 360) then brings the angles back to (90, -5) |
| `Camera.TestScriptLimits` | test_loborobot.py:137-147 | the script's two "limit" cases move away from the bounds, to (320/75, -1.8) and (180 - 320/75, 26.8), and are not clamped |
| `Camera.TiltToServo` | modules/camera.py:229-232 | the tilt remap `((a + 5) / 35) * 35 + 85` is `a + 90` and sends [-5, 30] into [85, 120] |
| `Camera.ServoCall` | modules/camera.py:221-235 | pan goes to channel 0 unchanged; tilt goes to channel 1 as tilt + 90 |
| `Camera.TrackedAnglesAccepted` | modules/camera.py:259-268 | every angle a tracking step produces passes set_gimbal_angle's range check on its axis |
| `Camera.GridFrame` | modules/camera.py:139-155 | the H x W frame, zeroed and then painted by the two nested loops, holds the blue colour at (y, x) exactly when y or x is a multiple of 20, and black everywhere else |
| `Camera.ServoControl.constructor` | modules/camera.py:34-36 | the tracker starts at pan 90, tilt -5 |
| `Camera.ServoControl.CalculateServoAngles` | modules/camera.py:38-70 | the returned pair is one tracking step from the old memory on each axis, lies in range, and is exactly the new memory |
| `Camera.CameraController.constructor` | modules/camera.py:77-133 | the controller starts at (90, -5), not streaming; on hardware it centres the gimbal with two servo calls and has no frame; otherwise it has a zeroed 480 x 640 frame and no servo calls; the invariant holds |
| `Camera.CameraController.SetGimbalAngle` | modules/camera.py:182-245 | an unknown axis or an out-of-range angle returns false and changes no angle and no log; an accepted angle is written to both copies of its axis and the other axis is untouched; a servo call is logged only on hardware when it does not raise; the result is true unless the call raises; a raising call does not roll back the angle |
| `Camera.CameraController.TrackObject` | modules/camera.py:247-270 | both copies of each angle become the tracking step's result; the result is true in simulation and otherwise exactly when neither servo call raises; the log gains the calls that succeeded, pan first |
| `Camera.CameraController.StartStreaming` | modules/camera.py:272-285 | from idle it returns true, sets streaming and a fresh stream thread; when already streaming it returns false and changes nothing |
| `Camera.CameraController.StopStreaming` | modules/camera.py:287-301 | when streaming it returns true, clears streaming and drops the thread; when idle it returns false and changes nothing |
| `Camera.CameraController.GetCurrentFrame` | modules/camera.py:326-328 | returns the current frame buffer, which may be absent |
| `Camera.CameraController.GetFrameBase64` | modules/camera.py:330-348 | with no frame it returns None without encoding; otherwise it returns the encoder's outcome |
| `Camera.CameraController.Cleanup` | modules/camera.py:350-356 | afterwards streaming is off and the thread is dropped if one was running |
| `Camera.StartTwice` | modules/camera.py:272-285 | starting twice from idle reports true, then false |
| `Camera.TrackInSimulation` | modules/camera.py:259-270 | in simulation tracking always succeeds, leaves both copies of each angle equal and makes no servo call |
| `Movement.Primitive` | modules/movement.py:67-77 | each accepted direction maps to its own primitive: forward to t_up, backward to t_down, left to turnLeft, right to turnRight, stop to t_stop; the speed is forwarded unchanged and the duration hint is 0.1 |
| `Movement.PrimitiveInjective` | modules/movement.py:67-77 | distinct directions dispatch to distinct primitives |
| `Movement.NotExpiredWithinDeadline` | modules/movement.py:129 | no tick at a time within 5 seconds of the last command fires |
| `Movement.ExpiredStaysExpired` | modules/movement.py:129 | once the deadline has passed for a command time, it stays passed at every later time |
| `Movement.MovementController.constructor` | modules/movement.py:24-45 | a fresh controller has direction 'stop', speed 0, the construction time as its last command time, a running watchdog and an empty drive log; hardware is used only when available and its set-up does not raise |
| `Movement.MovementController.Move` | modules/movement.py:47-82 | the command time, direction and speed are overwritten in every case, including a rejected direction and a raising primitive; an unknown direction returns false; an accepted one returns true unless its primitive raises on hardware, in which case the exception escapes; exactly the accepted direction's one primitive is logged, and only on hardware when it does not raise |
| `Movement.MovementController.SetMotorsForward` | modules/movement.py:84-92 | on hardware calls t_up(speed, 0.1), which either is logged or raises; in simulation nothing is sent and nothing raises |
| `Movement.MovementController.SetMotorsBackward` | modules/movement.py:94-100 | on hardware calls t_down(speed, 0.1), which either is logged or raises; in simulation nothing is sent and nothing raises |
| `Movement.MovementController.SetMotorsLeft` | modules/movement.py:102-108 | on hardware calls turnLeft(speed, 0.1), which either is logged or raises; in simulation nothing is sent and nothing raises |
| `Movement.MovementController.SetMotorsRight` | modules/movement.py:110-116 | on hardware calls turnRight(speed, 0.1), which either is logged or raises; in simulation nothing is sent and nothing raises |
| `Movement.MovementController.SetMotorsStop` | modules/movement.py:118-124 | on hardware calls t_stop(0.1), which either is logged or raises; in simulation nothing is sent and nothing raises |
| `Movement.MovementController.WatchdogTick` | modules/movement.py:126-132 | a tick of a running watchdog fires exactly when strictly more than 5 seconds have passed since the last command; it then calls one stop on hardware; a raising stop ends the watchdog loop, and an ended loop never fires; the command time, direction and speed are never changed |
| `Movement.MovementController.Cleanup` | modules/movement.py:134-137 | calls one stop, whose exception passes to the caller, and changes no state field |
| `Movement.TickAfterMove` | modules/movement.py:61-131 | after a move at time t, whether or not its primitive raised, a tick at any time up to t + 5 does not fire and leaves the watchdog running |
| `Movement.RepeatedTicks` | modules/movement.py:126-132 | once a tick fires, a later tick fires again until a new move arrives, issuing a second stop; if the first stop raised on hardware, the watchdog loop has ended and the later tick does not fire |

## Left out

- Threads and sleeps are not modelled. This covers the simulation loop, the streaming loop, the watchdog loop, their `time.sleep` pacing and the one-second join in `stop_streaming`. Each loop is concurrency; the watchdog is modelled as one tick with the time passed in.
- The race between `move` and the watchdog on `last_command_time` is not modelled; it exists only under concurrency.
- The streaming loop body (`_stream_video`) is not modelled. It is a thread body that copies or captures frames into the buffer.
- The image work of the simulated frame is not modelled: PIL text, the timestamp, the ellipses and line of the target overlay, and publishing the frame into `frame_buffer`. These are foreign drawing calls. Only the grid loops are modelled.
- The camera sensor is not modelled: Picamera2 configuration, start, `capture_array` and `close`. These are foreign calls.
- JPEG and base64 encoding is not modelled: `Camera.CameraController.GetFrameBase64` takes the encoder's outcome as a parameter.
- The import-time probe of the hardware libraries is not modelled. It is I/O; the flag and any set-up failure are constructor parameters.
- `Camera.CameraController.constructor`: assumes that the two centring servo calls made during hardware set-up succeed. A raising centring call only makes its `set_gimbal_angle` return false, and that result is ignored.
- The internals of the LOBOROBOT motor and servo driver are not modelled. Each of its calls is either logged in a command log or raises, as a parameter of the calling method says; a raising call is not logged.
- Camera.ServoControl.CalculateServoAngles: takes the frame width and height as non-negative; Python's floor division of a negative extent is not modelled, since the controller always passes its 640 x 480 resolution.
- Logging is not modelled.
- IEEE floating-point rounding is not modelled: angles and times are exact reals.
