/** Model of the camera gimbal controller: the proportional pan/tilt tracker
    (ServoControl), the gimbal driver with its streaming guard
    (CameraController) and the grid pattern of the simulated frame.

    Angles are exact reals. A call into the servo driver is recorded in the
    ghost log `servoLog`; whether such a call raises is a parameter. */
module Camera {

  newtype byte = x: int | 0 <= x < 256

  /** One RGB pixel. */
  datatype Rgb = Rgb(r: byte, g: byte, b: byte)

  datatype Option<T> = None | Some(value: T)

  const Black := Rgb(0, 0, 0)
  const SheikahBlue := Rgb(0, 100, 200)

  /** Pitch of the simulated grid, in pixels. */
  const GridSize: nat := 20

  /** Proportional gain: pixels of error per degree of correction. */
  const Gain: real := 75.0

  const PanMin: real := 0.0
  const PanMax: real := 180.0
  const TiltMin: real := -5.0
  const TiltMax: real := 30.0

  const PanChannel: nat := 0
  const TiltChannel: nat := 1

  /** One completed call of the servo driver's set_servo_angle. */
  datatype ServoCommand = SetServoAngle(channel: nat, angle: real)

  function Min(a: real, b: real): real { if a <= b then a else b }

  function Max(a: real, b: real): real { if a >= b then a else b }

  /** `calculate_servo_angles`'s `max(lo, min(v, hi))`. */
  function Clamp(v: real, lo: real, hi: real): (r: real)
    requires lo <= hi
    ensures lo <= r <= hi
    ensures lo <= v <= hi ==> r == v
    ensures v < lo ==> r == lo
    ensures hi < v ==> r == hi
  {
    Max(lo, Min(v, hi))
  }

  /** Pixel error of a target from the integer centre of the frame; the
      frame extent is never negative, so Python's `//` is Dafny's `/`. */
  function PixelError(target: int, extent: nat): int
  {
    target - extent / 2
  }

  /** The correction, in degrees, that one tracking step subtracts. */
  function Delta(target: int, extent: nat): real
  {
    PixelError(target, extent) as real / Gain
  }

  /** One proportional tracking step on one axis whose range is [lo, hi]. */
  function StepAxis(current: real, target: int, extent: nat, lo: real, hi: real): (r: real)
    requires lo <= hi
    ensures lo <= r <= hi
    ensures lo <= current <= hi && target == extent / 2 ==> r == current
    ensures lo <= current <= hi && PixelError(target, extent) >= 0 ==> r <= current
    ensures lo <= current <= hi && PixelError(target, extent) <= 0 ==> r >= current
  {
    Clamp(current - Delta(target, extent), lo, hi)
  }

  /** A target at the frame's integer centre leaves an in-range angle as
      it is: a named corollary of StepAxis's second ensures. */
  lemma CentredKeepsAngle(current: real, extent: nat, lo: real, hi: real)
    requires lo <= current <= hi
    ensures StepAxis(current, extent / 2, extent, lo, hi) == current
  {
  }

  /** The angle after `n` successive tracking steps toward the same target. */
  function Iterate(current: real, target: int, extent: nat, lo: real, hi: real, n: nat): real
    requires lo <= hi
  {
    if n == 0 then current
    else StepAxis(Iterate(current, target, extent, lo, hi, n - 1), target, extent, lo, hi)
  }

  /** One clamped step composes with an earlier clamp when both move the
      same way. */
  lemma ClampStep(c: real, e: real, d: real, lo: real, hi: real)
    requires lo <= c <= hi
    requires (d >= 0.0 && e >= 0.0) || (d <= 0.0 && e <= 0.0)
    ensures Clamp(Clamp(c - e, lo, hi) - d, lo, hi) == Clamp(c - (e + d), lo, hi)
  {
  }

  /** The correction accumulated over n steps of correction d each. */
  function Correction(n: nat, d: real): (r: real)
    ensures d >= 0.0 ==> r >= 0.0
    ensures d <= 0.0 ==> r <= 0.0
  {
    if n == 0 then 0.0 else Correction(n - 1, d) + d
  }

  /** The accumulated correction is n times the single one. */
  lemma {:induction false} CorrectionIsProduct(n: nat, d: real)
    ensures Correction(n, d) == (n as real) * d
  {
    if n > 0 {
      CorrectionIsProduct(n - 1, d);
      assert ((n - 1) as real) * d + d == (n as real) * d;
    }
  }

  /** Accumulated corrections grow in the direction of the single one. */
  lemma {:induction false} CorrectionMonotone(m: nat, n: nat, d: real)
    requires m <= n
    ensures d >= 0.0 ==> Correction(m, d) <= Correction(n, d)
    ensures d <= 0.0 ==> Correction(m, d) >= Correction(n, d)
  {
    if m < n {
      CorrectionMonotone(m, n - 1, d);
    }
  }

  /** n steps from an in-range angle move it by n corrections, clamped once:
      the controller integrates the error and saturates at the bound. */
  lemma {:induction false} IterateClosedForm(current: real, target: int, extent: nat, lo: real, hi: real, n: nat)
    requires lo <= current <= hi
    ensures Iterate(current, target, extent, lo, hi, n)
         == Clamp(current - Correction(n, Delta(target, extent)), lo, hi)
  {
    if n > 0 {
      var d := Delta(target, extent);
      IterateClosedForm(current, target, extent, lo, hi, n - 1);
      ClampStep(current, Correction(n - 1, d), d, lo, hi);
    }
  }

  /** Repeating the same off-centre input never moves the angle back: with a
      positive error it never rises, with a negative error it never falls. */
  lemma IterateMonotone(current: real, target: int, extent: nat, lo: real, hi: real, m: nat, n: nat)
    requires lo <= current <= hi
    requires m <= n
    ensures PixelError(target, extent) >= 0 ==>
              Iterate(current, target, extent, lo, hi, n) <= Iterate(current, target, extent, lo, hi, m)
    ensures PixelError(target, extent) <= 0 ==>
              Iterate(current, target, extent, lo, hi, n) >= Iterate(current, target, extent, lo, hi, m)
  {
    IterateClosedForm(current, target, extent, lo, hi, m);
    IterateClosedForm(current, target, extent, lo, hi, n);
    CorrectionMonotone(m, n, Delta(target, extent));
  }

  /** With a positive error the angle reaches its lower bound once the n
      corrections cover the distance to it, and a negative error likewise
      drives it to the upper bound. */
  lemma IterateReachesBound(current: real, target: int, extent: nat, lo: real, hi: real, n: nat)
    requires lo <= current <= hi
    ensures PixelError(target, extent) > 0 && (n as real) * Delta(target, extent) >= current - lo ==>
              Iterate(current, target, extent, lo, hi, n) == lo
    ensures PixelError(target, extent) < 0 && (n as real) * Delta(target, extent) <= current - hi ==>
              Iterate(current, target, extent, lo, hi, n) == hi
  {
    IterateClosedForm(current, target, extent, lo, hi, n);
    CorrectionIsProduct(n, Delta(target, extent));
  }

  /** Once at its bound, an angle pushed against that bound stays there. */
  lemma PinnedAtBound(current: real, target: int, extent: nat, lo: real, hi: real, m: nat, n: nat)
    requires lo <= current <= hi
    requires m <= n
    ensures PixelError(target, extent) >= 0 && Iterate(current, target, extent, lo, hi, m) == lo ==>
              Iterate(current, target, extent, lo, hi, n) == lo
    ensures PixelError(target, extent) <= 0 && Iterate(current, target, extent, lo, hi, m) == hi ==>
              Iterate(current, target, extent, lo, hi, n) == hi
  {
    IterateMonotone(current, target, extent, lo, hi, m, n);
  }

  /** The worked example: from (90, -5) the target (480, 360) in a 640x480
      frame moves pan by 160/75 and pins tilt at its floor. */
  lemma BottomRightExample()
    ensures StepAxis(90.0, 480, 640, PanMin, PanMax) == 90.0 - 160.0 / 75.0
    ensures StepAxis(-5.0, 360, 480, TiltMin, TiltMax) == -5.0
  {
  }

  /** The ServoControl scenario of the hardware test script starts at
      (90, -5) with the centred target, which changes nothing (an instance
      of CentredKeepsAngle); then the top-left target raises both
      angles, ... */
  lemma TestScriptTopLeft()
    ensures StepAxis(90.0, 160, 640, PanMin, PanMax) == 90.0 + 160.0 / 75.0
    ensures StepAxis(-5.0, 120, 480, TiltMin, TiltMax) == -3.4
  {
    assert Delta(160, 640) == -160.0 / 75.0;
    assert Delta(120, 480) == -1.6;
  }

  /** ... and the bottom-right target then brings them back to (90, -5). */
  lemma TestScriptBottomRight()
    ensures StepAxis(90.0 + 160.0 / 75.0, 480, 640, PanMin, PanMax) == 90.0
    ensures StepAxis(-3.4, 360, 480, TiltMin, TiltMax) == -5.0
  {
    assert Delta(480, 640) == 160.0 / 75.0;
    assert Delta(360, 480) == 1.6;
  }

  /** The two "limit" cases of the test script start at a bound and move
      away from it rather than being clamped. */
  lemma TestScriptLimits()
    ensures StepAxis(0.0, 0, 640, PanMin, PanMax) == 320.0 / 75.0
    ensures StepAxis(-5.0, 0, 480, TiltMin, TiltMax) == -1.8
    ensures StepAxis(180.0, 640, 640, PanMin, PanMax) == 180.0 - 320.0 / 75.0
    ensures StepAxis(30.0, 480, 480, TiltMin, TiltMax) == 26.8
  {
  }

  /** The range check of set_gimbal_angle: an accepted axis name with an
      angle inside that axis's range. */
  predicate AcceptsAngle(control: string, angle: real)
  {
    (control == "pan" && PanMin <= angle <= PanMax) ||
    (control == "tilt" && TiltMin <= angle <= TiltMax)
  }

  /** Maps a logical tilt in [-5, 30] onto the servo's [85, 120]. */
  function TiltToServo(angle: real): (r: real)
    ensures r == angle + 90.0
    ensures TiltMin <= angle <= TiltMax ==> 85.0 <= r <= 120.0
  {
    ((angle - (-5.0)) / 35.0) * 35.0 + 85.0
  }

  /** The servo call made for an accepted angle: pan goes to channel 0
      unchanged, tilt to channel 1 through TiltToServo. */
  function ServoCall(control: string, angle: real): (c: ServoCommand)
    ensures control == "pan" ==> c == SetServoAngle(PanChannel, angle)
    ensures control != "pan" ==> c == SetServoAngle(TiltChannel, angle + 90.0)
  {
    if control == "pan" then SetServoAngle(PanChannel, angle)
    else SetServoAngle(TiltChannel, TiltToServo(angle))
  }

  /** Every angle a tracking step produces passes the gimbal's range check:
      a corollary of StepAxis's first ensures. */
  lemma TrackedAnglesAccepted(pan: real, tilt: real, x: int, y: int, width: nat, height: nat)
    ensures AcceptsAngle("pan", StepAxis(pan, x, width, PanMin, PanMax))
    ensures AcceptsAngle("tilt", StepAxis(tilt, y, height, TiltMin, TiltMax))
  {
  }

  /** The pixel of the simulated grid at row y, column x. */
  function GridPixel(y: nat, x: nat): (p: Rgb)
    ensures p == SheikahBlue <==> y % GridSize == 0 || x % GridSize == 0
    ensures p != SheikahBlue ==> p == Black
  {
    if y % GridSize == 0 || x % GridSize == 0 then SheikahBlue else Black
  }

  /** Three multiples of GridSize: none lies strictly between y and y + GridSize. */
  lemma NextGridLine(i: int, y: int)
    requires i % (GridSize as int) == 0 && y % (GridSize as int) == 0
    requires 0 <= i < y + GridSize
    ensures i <= y
  {
  }

  /** The grid-painting loops of the simulated camera: a zeroed frame of
      height x width pixels, the horizontal lines painted row by row, then
      the vertical lines column by column. */
  method GridFrame(width: nat, height: nat) returns (frame: array2<Rgb>)
    ensures fresh(frame)
    ensures frame.Length0 == height && frame.Length1 == width
    ensures forall y, x :: 0 <= y < height && 0 <= x < width ==> frame[y, x] == GridPixel(y, x)
  {
    frame := new Rgb[height, width]((y, x) => Black);
    // one full row at every GridSize-th row index
    var y := 0;
    while y < height
      invariant 0 <= y && y % GridSize == 0
      invariant forall i, j :: 0 <= i < height && 0 <= j < width ==>
                  frame[i, j] == (if i < y && i % GridSize == 0 then SheikahBlue else Black)
    {
      var x := 0;
      while x < width
        invariant 0 <= x <= width
        invariant forall i, j :: 0 <= i < height && 0 <= j < width ==>
                    frame[i, j] == (if (i < y && i % GridSize == 0) || (i == y && j < x) then SheikahBlue else Black)
      {
        if x < width {
          frame[y, x] := SheikahBlue;
        }
        x := x + 1;
      }
      forall i | 0 <= i < height && i % GridSize == 0 && i < y + GridSize
        ensures i <= y
      {
        NextGridLine(i, y);
      }
      y := y + GridSize;
    }
    // one full column at every GridSize-th column index
    var x := 0;
    while x < width
      invariant 0 <= x && x % GridSize == 0
      invariant forall i, j :: 0 <= i < height && 0 <= j < width ==>
                  frame[i, j] == (if i % GridSize == 0 || (j < x && j % GridSize == 0) then SheikahBlue else Black)
    {
      var yy := 0;
      while yy < height
        invariant 0 <= yy <= height
        invariant forall i, j :: 0 <= i < height && 0 <= j < width ==>
                    frame[i, j] == (if i % GridSize == 0 || (j < x && j % GridSize == 0) || (j == x && i < yy)
                                    then SheikahBlue else Black)
      {
        if yy < height {
          frame[yy, x] := SheikahBlue;
        }
        yy := yy + 1;
      }
      forall j | 0 <= j < width && j % GridSize == 0 && j < x + GridSize
        ensures j <= x
      {
        NextGridLine(j, x);
      }
      x := x + GridSize;
    }
  }

  /** The pan/tilt memory of the proportional tracker. */
  class ServoControl {
    var pan: real
    var tilt: real

    ghost predicate Valid()
      reads this
    {
      PanMin <= pan <= PanMax && TiltMin <= tilt <= TiltMax
    }

    constructor ()
      ensures pan == 90.0 && tilt == -5.0
      ensures Valid()
    {
      pan := 90.0;
      tilt := -5.0;
    }

    /** One tracking step on both axes; the clamped angles become the new
        memory and are returned. Accepts any target, in frame or not. */
    method CalculateServoAngles(objectX: int, objectY: int, frameWidth: nat, frameHeight: nat)
      returns (newPan: real, newTilt: real)
      modifies this
      ensures newPan == StepAxis(old(pan), objectX, frameWidth, PanMin, PanMax)
      ensures newTilt == StepAxis(old(tilt), objectY, frameHeight, TiltMin, TiltMax)
      ensures pan == newPan && tilt == newTilt
      ensures Valid()
    {
      var errorPan := PixelError(objectX, frameWidth);
      var errorTilt := PixelError(objectY, frameHeight);
      var panAdjustment := errorPan as real / Gain;
      var tiltAdjustment := errorTilt as real / Gain;
      newPan := pan - panAdjustment;
      newTilt := tilt - tiltAdjustment;
      newPan := Clamp(newPan, PanMin, PanMax);
      newTilt := Clamp(newTilt, TiltMin, TiltMax);
      pan := newPan;
      tilt := newTilt;
    }
  }

  /** The handle of the background streaming loop. */
  class StreamThread {
    constructor ()
    {
    }
  }

  /** The gimbal driver and streaming session. `hardware` is the hardware
      flag as it stands after construction. */
  class CameraController {
    const width: nat := 640
    const height: nat := 480
    const hardware: bool
    const servoControl: ServoControl
    var panAngle: real
    var tiltAngle: real
    var isStreaming: bool
    var streamThread: StreamThread?
    var frameBuffer: array2?<Rgb>
    ghost var servoLog: seq<ServoCommand>

    /** Both copies of each angle agree, lie in range, and a stream thread
        exists exactly while streaming. */
    ghost predicate Valid()
      reads this, servoControl
    {
      servoControl.Valid() &&
      panAngle == servoControl.pan && tiltAngle == servoControl.tilt &&
      (isStreaming <==> streamThread != null)
    }

    /** Construction: on hardware the gimbal is centred through two servo
        calls; when the hardware is absent or its set-up raises, the
        controller falls back to simulation with a zeroed frame. */
    constructor (hwAvailable: bool, initFails: bool)
      ensures hardware == (hwAvailable && !initFails)
      ensures fresh(servoControl)
      ensures panAngle == 90.0 && tiltAngle == -5.0
      ensures !isStreaming && streamThread == null
      ensures hardware ==> frameBuffer == null
      ensures hardware ==> servoLog == [ServoCall("pan", 90.0), ServoCall("tilt", -5.0)]
      ensures !hardware ==> servoLog == []
      ensures !hardware ==> frameBuffer != null && fresh(frameBuffer)
      ensures !hardware ==> frameBuffer.Length0 == height && frameBuffer.Length1 == width
      ensures !hardware ==> forall y, x :: 0 <= y < height && 0 <= x < width ==> frameBuffer[y, x] == Black
      ensures Valid()
    {
      var hw := hwAvailable && !initFails;
      var sc := new ServoControl();
      var zeros: array2?<Rgb> := null;
      if !hw {
        zeros := new Rgb[480, 640]((y, x) => Black);
      }
      hardware := hw;
      servoControl := sc;
      panAngle := sc.pan;
      tiltAngle := sc.tilt;
      isStreaming := false;
      streamThread := null;
      frameBuffer := zeros;
      servoLog := if hw then [ServoCall("pan", 90.0), ServoCall("tilt", -5.0)] else [];
    }

    /** Validates the axis and its range, writes both copies of the angle,
        then, on hardware, issues the servo call; `servoFails` says whether
        that call raises. A failed call does not restore the old angle. */
    method SetGimbalAngle(control: string, angle: real, servoFails: bool) returns (ok: bool)
      modifies this`panAngle, this`tiltAngle, this`servoLog, servoControl
      ensures old(Valid()) ==> Valid()
      ensures ok == (AcceptsAngle(control, angle) && (!hardware || !servoFails))
      ensures !AcceptsAngle(control, angle) ==>
                panAngle == old(panAngle) && tiltAngle == old(tiltAngle) &&
                servoControl.pan == old(servoControl.pan) && servoControl.tilt == old(servoControl.tilt) &&
                servoLog == old(servoLog)
      ensures AcceptsAngle(control, angle) && control == "pan" ==>
                panAngle == angle && servoControl.pan == angle &&
                tiltAngle == old(tiltAngle) && servoControl.tilt == old(servoControl.tilt)
      ensures AcceptsAngle(control, angle) && control == "tilt" ==>
                tiltAngle == angle && servoControl.tilt == angle &&
                panAngle == old(panAngle) && servoControl.pan == old(servoControl.pan)
      ensures AcceptsAngle(control, angle) ==>
                servoLog == old(servoLog) + (if hardware && !servoFails then [ServoCall(control, angle)] else [])
    {
      if control != "pan" && control != "tilt" {
        return false;
      }
      if control == "pan" && !(PanMin <= angle <= PanMax) {
        return false;
      } else if control == "tilt" && !(TiltMin <= angle <= TiltMax) {
        return false;
      }
      if control == "pan" {
        panAngle := angle;
        servoControl.pan := angle;
      } else {
        tiltAngle := angle;
        servoControl.tilt := angle;
      }
      if hardware {
        if servoFails {
          return false;
        }
        servoLog := servoLog + [ServoCall(control, angle)];
        return true;
      } else {
        return true;
      }
    }

    /** One tracking step at the controller's resolution, then both angles
        are set; succeeds only when both servo calls do. */
    method TrackObject(objectX: int, objectY: int, panFails: bool, tiltFails: bool) returns (ok: bool)
      modifies this`panAngle, this`tiltAngle, this`servoLog, servoControl
      ensures panAngle == servoControl.pan == StepAxis(old(servoControl.pan), objectX, width, PanMin, PanMax)
      ensures tiltAngle == servoControl.tilt == StepAxis(old(servoControl.tilt), objectY, height, TiltMin, TiltMax)
      ensures ok == (!hardware || (!panFails && !tiltFails))
      ensures servoLog == old(servoLog)
                + (if hardware && !panFails then [ServoCall("pan", panAngle)] else [])
                + (if hardware && !tiltFails then [ServoCall("tilt", tiltAngle)] else [])
      ensures old(isStreaming <==> streamThread != null) ==> Valid()
    {
      var newPan, newTilt := servoControl.CalculateServoAngles(objectX, objectY, width, height);
      var panSuccess := SetGimbalAngle("pan", newPan, panFails);
      var tiltSuccess := SetGimbalAngle("tilt", newTilt, tiltFails);
      ok := panSuccess && tiltSuccess;
    }

    /** Starts streaming unless it is already active. */
    method StartStreaming() returns (ok: bool)
      modifies this`isStreaming, this`streamThread
      ensures ok == !old(isStreaming)
      ensures isStreaming
      ensures ok ==> streamThread != null && fresh(streamThread)
      ensures !ok ==> streamThread == old(streamThread)
      ensures old(Valid()) ==> Valid()
    {
      if isStreaming {
        return false;
      }
      isStreaming := true;
      streamThread := new StreamThread();
      return true;
    }

    /** Stops streaming if it is active; the join's one-second grace period
        is not modelled. */
    method StopStreaming() returns (ok: bool)
      modifies this`isStreaming, this`streamThread
      ensures ok == old(isStreaming)
      ensures !isStreaming
      ensures ok ==> streamThread == null
      ensures !ok ==> streamThread == old(streamThread)
      ensures old(Valid()) ==> Valid()
    {
      if !isStreaming {
        return false;
      }
      isStreaming := false;
      if streamThread != null {
        streamThread := null;
      }
      return true;
    }

    /** The last published frame, or null before any. */
    method GetCurrentFrame() returns (frame: array2?<Rgb>)
      ensures frame == frameBuffer
    {
      frame := frameBuffer;
    }

    /** The encoded current frame. `encoding` is what the JPEG and base64
        step makes of the frame (None when it raises); with no frame the
        result is None without encoding. */
    method GetFrameBase64(encoding: Option<string>) returns (r: Option<string>)
      ensures frameBuffer == null ==> r == None
      ensures frameBuffer != null ==> r == encoding
    {
      if frameBuffer == null {
        return None;
      }
      return encoding;
    }

    /** Stops streaming if active; closing the camera is not modelled. */
    method Cleanup()
      modifies this`isStreaming, this`streamThread
      ensures !isStreaming
      ensures streamThread == if old(isStreaming) then null else old(streamThread)
      ensures old(Valid()) ==> Valid()
    {
      if isStreaming {
        var _ := StopStreaming();
      }
    }
  }

  /** Starting twice reports true and then false; the second start changes
      nothing. */
  method StartTwice(c: CameraController) returns (first: bool, second: bool)
    requires c.Valid() && !c.isStreaming
    modifies c`isStreaming, c`streamThread
    ensures first && !second
    ensures c.isStreaming && c.Valid()
  {
    first := c.StartStreaming();
    second := c.StartStreaming();
  }

  /** In simulation, tracking always succeeds and leaves both copies of each
      angle equal. */
  method TrackInSimulation(c: CameraController, objectX: int, objectY: int) returns (ok: bool)
    requires !c.hardware && c.Valid()
    modifies c`panAngle, c`tiltAngle, c`servoLog, c.servoControl
    ensures ok && c.Valid()
    ensures c.servoLog == old(c.servoLog)
  {
    ok := c.TrackObject(objectX, objectY, false, false);
  }
}
