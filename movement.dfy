/** Model of the drive controller of the four-wheel car: the movement state,
    the dispatch of a direction to one drive primitive, and one tick of the
    inactivity watchdog.

    Time is a real number of seconds passed in by the caller. A drive
    primitive sent to the motor driver is recorded in the ghost log
    `driveLog`; in simulation nothing is sent. */
module Movement {

  /** The drive primitives of the motor driver, with their duration hint. */
  datatype DriveCommand =
    | TUp(speed: int, duration: real)
    | TDown(speed: int, duration: real)
    | TurnLeft(speed: int, duration: real)
    | TurnRight(speed: int, duration: real)
    | TStop(duration: real)

  /** The duration hint of every drive primitive, in seconds. */
  const BurstDuration: real := 0.1

  /** Seconds without a command after which the watchdog stops the motors. */
  const WatchdogTimeout: real := 5.0

  /** The direction tokens that `move` accepts. */
  predicate IsDirection(direction: string)
  {
    direction == "forward" || direction == "backward" || direction == "left" ||
    direction == "right" || direction == "stop"
  }

  /** The primitive an accepted direction dispatches to. The speed is
      forwarded as given, and every primitive carries the same short
      duration hint. */
  function Primitive(direction: string, speed: int): (c: DriveCommand)
    requires IsDirection(direction)
    ensures c.duration == BurstDuration
    ensures c.TUp? <==> direction == "forward"
    ensures c.TDown? <==> direction == "backward"
    ensures c.TurnLeft? <==> direction == "left"
    ensures c.TurnRight? <==> direction == "right"
    ensures c.TStop? <==> direction == "stop"
    ensures !c.TStop? ==> c.speed == speed
  {
    if direction == "forward" then TUp(speed, BurstDuration)
    else if direction == "backward" then TDown(speed, BurstDuration)
    else if direction == "left" then TurnLeft(speed, BurstDuration)
    else if direction == "right" then TurnRight(speed, BurstDuration)
    else TStop(BurstDuration)
  }

  /** Distinct directions dispatch to distinct primitives. */
  lemma PrimitiveInjective(d1: string, d2: string, speed: int)
    requires IsDirection(d1) && IsDirection(d2)
    requires Primitive(d1, speed) == Primitive(d2, speed)
    ensures d1 == d2
  {
  }

  /** The watchdog's deadline test: strictly more than the timeout since the
      last command. */
  predicate Expired(now: real, lastCommandTime: real)
  {
    now - lastCommandTime > WatchdogTimeout
  }

  /** No tick within the timeout of a command fires. */
  lemma NotExpiredWithinDeadline(now: real, lastCommandTime: real)
    requires now <= lastCommandTime + WatchdogTimeout
    ensures !Expired(now, lastCommandTime)
  {
  }

  /** Once expired, the deadline stays expired at every later time for the
      same last command. */
  lemma ExpiredStaysExpired(now: real, later: real, lastCommandTime: real)
    requires Expired(now, lastCommandTime) && now <= later
    ensures Expired(later, lastCommandTime)
  {
  }

  /** What a call of `move` comes to: it returns its success flag, or the
      drive primitive it dispatched to raises and the exception escapes. */
  datatype Outcome = Returned(ok: bool) | Raised

  /** The drive / watchdog controller. `hardware` is the hardware flag as it
      stands after construction; `watchdogRunning` tells whether the
      watchdog loop is still alive. Whether a drive primitive raises is a
      parameter of each call; a primitive that raises is not logged. */
  class MovementController {
    const hardware: bool
    var currentDirection: string
    var currentSpeed: int
    var lastCommandTime: real
    var watchdogRunning: bool
    ghost var driveLog: seq<DriveCommand>

    /** A fresh controller is stopped, at speed 0, with its last command
        time set to the construction time, and its watchdog runs. When the
        driver's set-up raises, the controller runs in simulation. */
    constructor (hwAvailable: bool, initFails: bool, now: real)
      ensures hardware == (hwAvailable && !initFails)
      ensures currentDirection == "stop" && currentSpeed == 0
      ensures lastCommandTime == now
      ensures watchdogRunning
      ensures driveLog == []
    {
      hardware := hwAvailable && !initFails;
      currentDirection := "stop";
      currentSpeed := 0;
      lastCommandTime := now;
      watchdogRunning := true;
      driveLog := [];
    }

    /** Records the command time, direction and speed, then dispatches to
        one drive primitive. An unknown direction is rejected only after
        the state has been overwritten, and sends nothing. On hardware a
        raising primitive (`fails`) escapes `move` with the state already
        overwritten. */
    method Move(direction: string, speedPercent: int, now: real, fails: bool) returns (r: Outcome)
      modifies this`lastCommandTime, this`currentDirection, this`currentSpeed, this`driveLog
      ensures lastCommandTime == now
      ensures currentDirection == direction && currentSpeed == speedPercent
      ensures r == if !IsDirection(direction) then Returned(false)
                   else if hardware && fails then Raised
                   else Returned(true)
      ensures driveLog == old(driveLog) +
                (if IsDirection(direction) && hardware && !fails then [Primitive(direction, speedPercent)] else [])
    {
      lastCommandTime := now;
      currentDirection := direction;
      currentSpeed := speedPercent;
      var raised := false;
      if direction == "forward" {
        raised := SetMotorsForward(speedPercent, fails);
      } else if direction == "backward" {
        raised := SetMotorsBackward(speedPercent, fails);
      } else if direction == "left" {
        raised := SetMotorsLeft(speedPercent, fails);
      } else if direction == "right" {
        raised := SetMotorsRight(speedPercent, fails);
      } else if direction == "stop" {
        raised := SetMotorsStop(fails);
      } else {
        return Returned(false);
      }
      if raised {
        return Raised;
      }
      return Returned(true);
    }

    /** On hardware sends t_up, which raises when `fails`; in simulation
        sends nothing and cannot raise. */
    method SetMotorsForward(speedPercent: int, fails: bool) returns (raised: bool)
      modifies this`driveLog
      ensures raised == (hardware && fails)
      ensures driveLog == old(driveLog) + (if hardware && !fails then [TUp(speedPercent, BurstDuration)] else [])
    {
      raised := false;
      if hardware {
        if fails {
          return true;
        }
        driveLog := driveLog + [TUp(speedPercent, BurstDuration)];
      }
    }

    /** On hardware sends t_down, which raises when `fails`. */
    method SetMotorsBackward(speedPercent: int, fails: bool) returns (raised: bool)
      modifies this`driveLog
      ensures raised == (hardware && fails)
      ensures driveLog == old(driveLog) + (if hardware && !fails then [TDown(speedPercent, BurstDuration)] else [])
    {
      raised := false;
      if hardware {
        if fails {
          return true;
        }
        driveLog := driveLog + [TDown(speedPercent, BurstDuration)];
      }
    }

    /** On hardware sends turnLeft, which raises when `fails`. */
    method SetMotorsLeft(speedPercent: int, fails: bool) returns (raised: bool)
      modifies this`driveLog
      ensures raised == (hardware && fails)
      ensures driveLog == old(driveLog) + (if hardware && !fails then [TurnLeft(speedPercent, BurstDuration)] else [])
    {
      raised := false;
      if hardware {
        if fails {
          return true;
        }
        driveLog := driveLog + [TurnLeft(speedPercent, BurstDuration)];
      }
    }

    /** On hardware sends turnRight, which raises when `fails`. */
    method SetMotorsRight(speedPercent: int, fails: bool) returns (raised: bool)
      modifies this`driveLog
      ensures raised == (hardware && fails)
      ensures driveLog == old(driveLog) + (if hardware && !fails then [TurnRight(speedPercent, BurstDuration)] else [])
    {
      raised := false;
      if hardware {
        if fails {
          return true;
        }
        driveLog := driveLog + [TurnRight(speedPercent, BurstDuration)];
      }
    }

    /** On hardware sends t_stop, which raises when `fails`. */
    method SetMotorsStop(fails: bool) returns (raised: bool)
      modifies this`driveLog
      ensures raised == (hardware && fails)
      ensures driveLog == old(driveLog) + (if hardware && !fails then [TStop(BurstDuration)] else [])
    {
      raised := false;
      if hardware {
        if fails {
          return true;
        }
        driveLog := driveLog + [TStop(BurstDuration)];
      }
    }

    /** One tick of the watchdog loop at time `now`. `triggered` tells
        whether the deadline had passed (the branch in which `_watchdog`
        logs its warning). The tick only issues a stop primitive: it leaves
        the command time, direction and speed as they are. The loop has no
        handler, so a raising stop (`stopFails`) ends it, and a loop that
        has ended ticks no more. */
    method WatchdogTick(now: real, stopFails: bool) returns (triggered: bool)
      modifies this`driveLog, this`watchdogRunning
      ensures triggered == (old(watchdogRunning) && Expired(now, lastCommandTime))
      ensures watchdogRunning == (old(watchdogRunning) && !(triggered && hardware && stopFails))
      ensures driveLog == old(driveLog) + (if triggered && hardware && !stopFails then [TStop(BurstDuration)] else [])
    {
      if !watchdogRunning {
        return false;
      }
      triggered := now - lastCommandTime > WatchdogTimeout;
      if triggered {
        var raised := SetMotorsStop(stopFails);
        if raised {
          watchdogRunning := false;
        }
      }
    }

    /** Issues one stop, whose exception (`stopFails`) passes to the caller;
        the state fields are left as they are. */
    method Cleanup(stopFails: bool) returns (raised: bool)
      modifies this`driveLog
      ensures raised == (hardware && stopFails)
      ensures driveLog == old(driveLog) + (if hardware && !stopFails then [TStop(BurstDuration)] else [])
    {
      raised := SetMotorsStop(stopFails);
    }
  }

  /** A tick within the timeout of a move does not fire, whatever the
      direction was and whether the move's primitive raised. */
  method TickAfterMove(m: MovementController, direction: string, speed: int, t: real, now: real,
                       moveFails: bool, stopFails: bool)
    returns (r: Outcome, triggered: bool)
    requires now <= t + WatchdogTimeout
    modifies m`lastCommandTime, m`currentDirection, m`currentSpeed, m`driveLog, m`watchdogRunning
    ensures !triggered
    ensures m.watchdogRunning == old(m.watchdogRunning)
    ensures m.driveLog == old(m.driveLog) +
              (if IsDirection(direction) && m.hardware && !moveFails then [Primitive(direction, speed)] else [])
  {
    r := m.Move(direction, speed, t, moveFails);
    triggered := m.WatchdogTick(now, stopFails);
    NotExpiredWithinDeadline(now, t);
  }

  /** Once a tick fires, a later tick fires again, so without a new move
      the watchdog keeps issuing stops; unless the first stop raised, which
      ends the watchdog loop for good. */
  method RepeatedTicks(m: MovementController, first: real, second: real, firstFails: bool, secondFails: bool)
    returns (t1: bool, t2: bool)
    requires first <= second
    modifies m`driveLog, m`watchdogRunning
    ensures t1 && !(m.hardware && firstFails) ==> t2
    ensures t1 && m.hardware && firstFails ==> !t2 && !m.watchdogRunning
    ensures t1 && m.hardware && !firstFails && !secondFails ==>
              m.driveLog == old(m.driveLog) + [TStop(BurstDuration), TStop(BurstDuration)]
  {
    t1 := m.WatchdogTick(first, firstFails);
    t2 := m.WatchdogTick(second, secondFails);
    if t1 {
      ExpiredStaysExpired(first, second, m.lastCommandTime);
    }
  }
}
