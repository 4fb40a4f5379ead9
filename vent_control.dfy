/** The smart register's controller: the process-wide state of the Raspberry
    Pi program (the servo's two angle variables, gas, motion and timing
    state), the remote-override commands that the web API runs, and the
    steps of the autonomous main loop. Each command and each loop step is one
    atomic method; `now` is the wall clock in integer milliseconds. */
module VentControl {
  import opened Text
  import VentPolicy

  const MinAngle := 0
  const MaxAngle := 180
  const LcdWidth := 16

  const GasPollMillis := 500
  const MotionDebounceMillis := 1_000
  const TelemetryMillis := 5_000
  const VentChangeMillis := 10_000
  /** More consecutive sensor failures than this show a warning on the display. */
  const MaxSilentFailures := 5

  const RangeMessage := "Angle must be between 0 and 180 degrees for SG90 servo"
  const PresetMessage := "Invalid preset position"
  /** What Python's range() raises for a zero step, caught and reported by the sweep. */
  const ZeroStepMessage := "range() arg 3 must not be zero"


  /** The sweep's `delay` after float(): a finite number of seconds, or NaN. */
  datatype Delay = Seconds(seconds: real) | NotANumber

  /** The error time.sleep raises for a delay: it refuses NaN and negative
      lengths, and sleeps for every other finite one. */
  function SleepFailure(delay: Delay): (r: Option<string>)
    ensures r.None? <==> delay.Seconds? && delay.seconds >= 0.0
  {
    match delay
    case NotANumber => Some("Invalid value NaN (not a number)")
    case Seconds(s) => if s < 0.0 then Some("sleep length must be non-negative") else None
  }

  /** The JSON bodies the override commands answer with. */
  datatype Response =
    | AngleSet(angle: int)
    | PresetSet(angle: int, position: string)
    | SweepDone(start: int, end: int)
    | Error(message: string)

  /** One DHT11 read: a valid temperature/humidity pair, or a failed read. */
  datatype SensorRead = Reading(temp: int, humidity: int) | ReadFailed

  /** The payload published to the cloud channel. */
  datatype Telemetry = Telemetry(temperature: int, humidity: int, motion: bool, gas: bool)

  /** The two 16-character lines sent to the LCD. */
  datatype Screen = Screen(line1: string, line2: string)

  datatype DisplayMode = ClimateView | MotionView | VentView | GasView

  datatype Status = Status(angle: int, gasDetected: bool, motionDetected: bool, ventReason: string)

  predicate InRange(angle: int) {
    MinAngle <= angle <= MaxAngle
  }

  predicate AllInRange(angles: seq<int>) {
    forall k :: 0 <= k < |angles| ==> InRange(angles[k])
  }

  /** The clamp of set_angle: the angle of [0, 180] nearest to the request. */
  function Clamp(angle: int): (r: int)
    ensures InRange(r)
    ensures forall x :: InRange(x) ==> Dist(r, angle) <= Dist(x, angle)
    ensures InRange(angle) ==> r == angle
  {
    if angle < MinAngle then MinAngle else if angle > MaxAngle then MaxAngle else angle
  }

  function Dist(a: int, b: int): nat {
    if a <= b then b - a else a - b
  }

  // ---------------------------------------------------------------- LCD text

  function Spaces(n: nat): (s: string)
    ensures |s| == n && forall i :: 0 <= i < n ==> s[i] == ' '
  {
    if n == 0 then "" else " " + Spaces(n - 1)
  }

  /** lcd_string: the message padded on the right with blanks and cut to
      exactly the display width. */
  function LcdLine(message: string): (r: string)
    ensures |r| == LcdWidth
    ensures |message| <= LcdWidth ==>
      r[..|message|] == message && forall i :: |message| <= i < LcdWidth ==> r[i] == ' '
    ensures |message| >= LcdWidth ==> r == message[..LcdWidth]
  {
    var padded := if |message| < LcdWidth then message + Spaces(LcdWidth - |message|) else message;
    padded[..LcdWidth]
  }

  /** A line already of display width is sent unchanged. */
  lemma LcdLineIdempotent(message: string)
    ensures LcdLine(LcdLine(message)) == LcdLine(message)
  {
  }

  function Take(s: string, n: nat): (r: string)
    ensures |r| == if |s| < n then |s| else n
    ensures r == s[..|r|]
  {
    if |s| <= n then s else s[..n]
  }

  /** Python's s[-5:]: the last five characters, or all of a shorter string. */
  function LastFive(s: string): (r: string)
    ensures |r| == if |s| < 5 then |s| else 5
    ensures r == s[|s| - |r|..]
  {
    if |s| <= 5 then s else s[|s| - 5..]
  }

  /** The display view for a clock second: (second // 5) % 4, so each view is
      shown for five seconds of every twenty. */
  function ModeOf(second: nat): (m: DisplayMode)
    ensures second % 20 < 5 <==> m == ClimateView
    ensures 5 <= second % 20 < 10 <==> m == MotionView
    ensures 10 <= second % 20 < 15 <==> m == VentView
    ensures 15 <= second % 20 <==> m == GasView
  {
    var k := (second / 5) % 4;
    DivModTwenty(second);
    if k == 0 then ClimateView else if k == 1 then MotionView else if k == 2 then VentView else GasView
  }

  lemma DivModTwenty(s: nat)
    ensures (s / 5) % 4 == (s % 20) / 5
  {
    var q, r := s / 20, s % 20;
    assert s == 20 * q + r;
    assert s / 5 == 4 * q + r / 5;
  }

  /** The vent status text: "Off" when closed, a whole percentage of 180
      strictly between, "On" otherwise. */
  function VentStatus(position: int): (r: string)
    ensures position == 0 ==> r == "Off"
    ensures (position < 0 || position >= MaxAngle) ==> r == "On"
    ensures 0 < position < MaxAngle ==>
      exists q: nat :: q < 100 && q * MaxAngle <= position * 100 < (q + 1) * MaxAngle
                    && r == NatToString(q) + "%"
  {
    if 0 < position < MaxAngle then
      var q := position * 100 / MaxAngle;
      assert q * MaxAngle <= position * 100 < (q + 1) * MaxAngle;
      NatToString(q) + "%"
    else if position == 0 then "Off"
    else "On"
  }

  /** The three positions the policy chooses read "Off", "50%" and "On". */
  lemma PolicyPositionsStatus()
    ensures VentStatus(VentPolicy.Closed) == "Off"
    ensures VentStatus(VentPolicy.HalfOpen) == "50%"
    ensures VentStatus(VentPolicy.FullyOpen) == "On"
  {
    assert NatToString(50) == "50" by {
      assert NatToString(5) == "5";
    }
  }

  /** What the display shows after a valid reading, for each view. */
  function ScreenFor(mode: DisplayMode, temp: int, humidity: int, clock: string, motion: bool,
                     servoPosition: int, reason: string, gas: bool): (s: Screen)
    ensures |s.line1| == LcdWidth && |s.line2| == LcdWidth
  {
    match mode
    case ClimateView =>
      Screen(LcdLine("Temp: " + IntToString(temp) + "C"),
             LcdLine("Hum: " + IntToString(humidity) + "% " + LastFive(clock)))
    case MotionView =>
      Screen(LcdLine("Motion Detector"), LcdLine("Status: " + (if motion then "ACTIVE" else "Inactive")))
    case VentView =>
      Screen(LcdLine("Vent: " + VentStatus(servoPosition)), LcdLine("Reason: " + Take(reason, 16)))
    case GasView =>
      Screen(LcdLine("Gas Detector"), LcdLine("Status: " + (if gas then "DANGER!" else "Normal")))
  }

  /** The vent view shows "Reason: " and then only the first eight characters
      of the reason, padded with blanks when it is shorter. */
  lemma VentViewShowsReason(temp: int, humidity: int, clock: string, motion: bool,
                            servoPosition: int, reason: string, gas: bool)
    ensures var s := ScreenFor(VentView, temp, humidity, clock, motion, servoPosition, reason, gas);
      s.line2[..8] == "Reason: " &&
      forall i :: 0 <= i < 8 ==> s.line2[8 + i] == if i < |reason| then reason[i] else ' '
  {
    var line2 := "Reason: " + Take(reason, 16);
    assert line2[..8] == "Reason: ";
  }

  /** The gas and motion views name their detector and show its status word. */
  lemma StatusViews(temp: int, humidity: int, clock: string, motion: bool,
                    servoPosition: int, reason: string, gas: bool)
    ensures var s := ScreenFor(GasView, temp, humidity, clock, motion, servoPosition, reason, gas);
      s.line1 == LcdLine("Gas Detector") && s.line2 == LcdLine(if gas then "Status: DANGER!" else "Status: Normal")
    ensures var s := ScreenFor(MotionView, temp, humidity, clock, motion, servoPosition, reason, gas);
      s.line1 == LcdLine("Motion Detector") && s.line2 == LcdLine(if motion then "Status: ACTIVE" else "Status: Inactive")
  {
    if gas {
      assert "Status: " + "DANGER!" == "Status: DANGER!";
    } else {
      assert "Status: " + "Normal" == "Status: Normal";
    }
    if motion {
      assert "Status: " + "ACTIVE" == "Status: ACTIVE";
    } else {
      assert "Status: " + "Inactive" == "Status: Inactive";
    }
  }

  const SensorErrorScreen := Screen(LcdLine("Sensor Error!"), LcdLine("Check Connection"))

  // ----------------------------------------------------- presets and sweeps

  /** set_preset_position's names and angles. */
  function PresetAngle(position: string): (r: Option<int>)
    ensures r.Some? <==> position in {"far_left", "left", "center", "right", "far_right"}
    ensures r.Some? ==> InRange(r.value) && r.value % 45 == 0
  {
    if position == "far_left" then Some(0)
    else if position == "left" then Some(45)
    else if position == "center" then Some(90)
    else if position == "right" then Some(135)
    else if position == "far_right" then Some(180)
    else None
  }

  /** The preset that sits at an angle, if any: the inverse of PresetAngle. */
  function PresetAt(angle: int): (r: Option<string>)
    ensures r.Some? <==> InRange(angle) && angle % 45 == 0
  {
    if angle == 0 then Some("far_left")
    else if angle == 45 then Some("left")
    else if angle == 90 then Some("center")
    else if angle == 135 then Some("right")
    else if angle == 180 then Some("far_right")
    else None
  }

  /** Presets and preset angles correspond one to one. */
  lemma PresetRoundTrip(position: string, angle: int)
    ensures PresetAngle(position) == Some(angle) <==> PresetAt(angle) == Some(position)
  {
  }

  /** Python's range(lo, hi, step). */
  function PyRange(lo: int, hi: int, step: int): (r: seq<int>)
    requires step != 0
    ensures r == [] <==> (if step > 0 then lo >= hi else lo <= hi)
    ensures r != [] ==> r[0] == lo
    decreases if step > 0 then hi - lo else lo - hi
  {
    if (step > 0 && lo < hi) || (step < 0 && lo > hi) then [lo] + PyRange(lo + step, hi, step) else []
  }

  /** Every element of range lies in [lo, hi) for a positive step and in (hi, lo] for a negative one. */
  lemma {:induction false} PyRangeBounds(lo: int, hi: int, step: int, k: nat)
    requires step != 0
    requires k < |PyRange(lo, hi, step)|
    ensures step > 0 ==> lo <= PyRange(lo, hi, step)[k] < hi
    ensures step < 0 ==> hi < PyRange(lo, hi, step)[k] <= lo
    decreases k
  {
    var rest := PyRange(lo + step, hi, step);
    assert PyRange(lo, hi, step) == [lo] + rest;
    if k > 0 {
      PyRangeBounds(lo + step, hi, step, k - 1);
    }
  }

  /** range stops at the last value before hi: one more step reaches or passes hi. */
  lemma {:induction false} PyRangeLast(lo: int, hi: int, step: int)
    requires step != 0
    requires PyRange(lo, hi, step) != []
    ensures var r := PyRange(lo, hi, step);
      if step > 0 then r[|r| - 1] + step >= hi else r[|r| - 1] + step <= hi
    decreases if step > 0 then hi - lo else lo - hi
  {
    var r := PyRange(lo, hi, step);
    var rest := PyRange(lo + step, hi, step);
    assert r == [lo] + rest;
    if rest != [] {
      PyRangeLast(lo + step, hi, step);
      assert r[|r| - 1] == rest[|rest| - 1];
    }
  }

  /** Consecutive elements of range differ by exactly step. */
  lemma {:induction false} PyRangeStep(lo: int, hi: int, step: int, i: nat)
    requires step != 0
    requires i + 1 < |PyRange(lo, hi, step)|
    ensures PyRange(lo, hi, step)[i + 1] == PyRange(lo, hi, step)[i] + step
    decreases i
  {
    var rest := PyRange(lo + step, hi, step);
    assert PyRange(lo, hi, step) == [lo] + rest;
    if i > 0 {
      PyRangeStep(lo + step, hi, step, i - 1);
    }
  }

  /** range with a positive step is strictly increasing, with a negative step strictly decreasing. */
  lemma {:induction false} PyRangeMonotone(lo: int, hi: int, step: int, i: nat, j: nat)
    requires step != 0
    requires i < j < |PyRange(lo, hi, step)|
    ensures if step > 0 then PyRange(lo, hi, step)[i] < PyRange(lo, hi, step)[j]
            else PyRange(lo, hi, step)[i] > PyRange(lo, hi, step)[j]
    decreases i
  {
    var rest := PyRange(lo + step, hi, step);
    assert PyRange(lo, hi, step) == [lo] + rest;
    if i > 0 {
      PyRangeMonotone(lo + step, hi, step, i - 1, j - 1);
    } else {
      PyRangeBounds(lo + step, hi, step, j - 1);
      assert PyRange(lo, hi, step)[j] == rest[j - 1];
    }
  }

  /** The angles sweep_servo visits: from start toward end by |step|, both ends included. */
  function SweepAngles(start: int, end: int, step: int): seq<int>
    requires step != 0
  {
    if start <= end then PyRange(start, end + 1, step) else PyRange(start, end - 1, -step)
  }

  predicate SweepRejected(start: int, end: int) {
    !InRange(start) || !InRange(end)
  }

  predicate Between(x: int, a: int, b: int) {
    if a <= b then a <= x <= b else b <= x <= a
  }

  /** A sweep with a positive step starts at `start`, moves toward `end` in
      steps of exactly `step`, stays between the two, and stops less than a
      step short of `end`. */
  lemma SweepShape(start: int, end: int, step: int)
    requires step > 0
    ensures var r := SweepAngles(start, end, step);
      && r != [] && r[0] == start
      && (forall k :: 0 <= k < |r| ==> Between(r[k], start, end))
      && (forall i :: 0 < i < |r| ==> Dist(r[i], r[i - 1]) == step)
      && Dist(r[|r| - 1], end) < step
  {
    var r := SweepAngles(start, end, step);
    var hi := if start <= end then end + 1 else end - 1;
    var inc := if start <= end then step else -step;
    assert r == PyRange(start, hi, inc);
    forall k | 0 <= k < |r| ensures Between(r[k], start, end) {
      PyRangeBounds(start, hi, inc, k);
    }
    forall i | 0 < i < |r| ensures Dist(r[i], r[i - 1]) == step {
      PyRangeStep(start, hi, inc, i - 1);
    }
    PyRangeLast(start, hi, inc);
    PyRangeBounds(start, hi, inc, |r| - 1);
  }

  /** The visited angles are strictly monotone: increasing when start <= end,
      decreasing otherwise. */
  lemma SweepMonotone(start: int, end: int, step: int, i: nat, j: nat)
    requires step > 0
    requires i < j < |SweepAngles(start, end, step)|
    ensures var r := SweepAngles(start, end, step); if start <= end then r[i] < r[j] else r[i] > r[j]
  {
    if start <= end {
      PyRangeMonotone(start, end + 1, step, i, j);
    } else {
      PyRangeMonotone(start, end - 1, -step, i, j);
    }
  }

  /** A non-positive step visits nothing (a zero step is rejected before). */
  lemma SweepNegativeStepEmpty(start: int, end: int, step: int)
    requires step < 0
    ensures SweepAngles(start, end, step) == []
  {
  }

  /** A sweep inside [0, 180] only visits angles inside [0, 180]. */
  lemma SweepStaysInRange(start: int, end: int, step: int)
    requires step != 0 && !SweepRejected(start, end)
    ensures AllInRange(SweepAngles(start, end, step))
  {
    var r := SweepAngles(start, end, step);
    var hi := if start <= end then end + 1 else end - 1;
    var inc := if start <= end then step else -step;
    assert r == PyRange(start, hi, inc);
    forall k | 0 <= k < |r| ensures InRange(r[k]) {
      PyRangeBounds(start, hi, inc, k);
    }
  }

  // ----------------------------------------------- consecutive sensor failures

  /** The intended failure counter over a history of read outcomes (true =
      valid): it counts the failures since the last valid read. */
  function FailureCounter(valid: seq<bool>): nat {
    if valid == [] then 0
    else if valid[|valid| - 1] then 0
    else FailureCounter(valid[..|valid| - 1]) + 1
  }

  /** The warning is on exactly when the last six reads all failed. */
  lemma {:induction false} WarnAfterSixFailures(valid: seq<bool>)
    ensures FailureCounter(valid) > MaxSilentFailures <==>
      |valid| > MaxSilentFailures && forall i :: |valid| - 6 <= i < |valid| ==> !valid[i]
  {
    FailureCounterCountsTrailing(valid, 6);
  }

  /** The counter reaches n exactly when the last n reads all failed. */
  lemma {:induction false} FailureCounterCountsTrailing(valid: seq<bool>, n: nat)
    ensures FailureCounter(valid) >= n <==> |valid| >= n && forall i :: |valid| - n <= i < |valid| ==> !valid[i]
    decreases |valid|
  {
    if n > 0 && valid != [] {
      var prefix := valid[..|valid| - 1];
      FailureCounterCountsTrailing(prefix, n - 1);
      if !valid[|valid| - 1] {
        if |valid| >= n && forall i :: |valid| - n <= i < |valid| ==> !valid[i] {
          assert forall i :: |prefix| - (n - 1) <= i < |prefix| ==> !prefix[i] by {
            forall i | |prefix| - (n - 1) <= i < |prefix| ensures !prefix[i] {
              assert prefix[i] == valid[i];
            }
          }
        }
        if FailureCounter(valid) >= n {
          forall i | |valid| - n <= i < |valid| ensures !valid[i] {
            if i < |valid| - 1 { assert prefix[i] == valid[i]; }
          }
        }
      }
    }
  }

  /** The failure warning as the source computes it: the counter is reset to 0
      on every failure before it is incremented, whatever the history. */
  function FailureWarningAsWritten(consecutiveFailures: nat): (warn: bool)
    ensures !warn
  {
    var errorCount := 0;
    var errorCount' := errorCount + 1;
    errorCount' > MaxSilentFailures
  }

  /** Six failed reads in a row: the intended counter warns, the source does not. */
  lemma SixFailuresFinding()
    ensures FailureCounter([false, false, false, false, false, false]) > MaxSilentFailures
    ensures !FailureWarningAsWritten(6)
  {
    var h := [false, false, false, false, false, false];
    WarnAfterSixFailures(h);
  }

  // ------------------------------------------------------------ the controller

  class Controller {
    /** The angle the web API reports; written only by the override commands. */
    var currentAngle: int
    /** The angle the autonomous loop last chose; written only by the loop. */
    var servoPosition: int
    var gasDetected: bool
    /** The alarm LED and buzzer, which are always switched together. */
    var alarmOn: bool
    var lastMotionTime: int
    var currentReason: string
    var lastDetectedMotion: bool
    var lastVentChangeTime: int
    var motionCount: nat
    var lastPubnubTime: int
    var lastGasCheckTime: int
    /** Consecutive failed sensor reads (the corrected counter). */
    var sensorFailures: nat

    /** The angles commanded to the servo by the override commands, in order. */
    ghost var overrideMoves: seq<int>
    /** The angles commanded to the servo by the autonomous loop, in order. */
    ghost var autonomousMoves: seq<int>

    ghost predicate Valid()
      reads this
    {
      && InRange(currentAngle) && InRange(servoPosition)
      && AllInRange(overrideMoves) && AllInRange(autonomousMoves)
    }

    /** Start-up: the module defaults, the first gas reading, and the
        initial values set before the loop starts, including the first
        autonomous move to the half-open position. */
    constructor (now: int, gasReading: bool)
      ensures Valid()
      ensures currentAngle == 90 && servoPosition == 90 && autonomousMoves == [90] && overrideMoves == []
      ensures gasDetected == gasReading && !alarmOn
      ensures lastMotionTime == now && !lastDetectedMotion && motionCount == 0
      ensures lastVentChangeTime == 0 && lastPubnubTime == 0 && lastGasCheckTime == 0
      ensures currentReason == "Initial state" && sensorFailures == 0
    {
      currentAngle := 90;
      gasDetected := gasReading;
      alarmOn := false;
      motionCount := 0;
      lastMotionTime := now;
      servoPosition := 90;
      autonomousMoves := [90];
      lastDetectedMotion := false;
      lastVentChangeTime := 0;
      currentReason := "Initial state";
      lastPubnubTime := 0;
      lastGasCheckTime := 0;
      sensorFailures := 0;
      overrideMoves := [];
    }

    /** What GET /api/get_angle reports. */
    function Angle(): (a: int)
      reads this
      requires Valid()
      ensures InRange(a)
    {
      currentAngle
    }

    /** What GET /api/system_status reports: the API angle, not the servo position. */
    function SystemStatus(): (s: Status)
      reads this
      requires Valid()
      ensures InRange(s.angle) && s.angle == Angle()
    {
      Status(currentAngle, gasDetected, lastDetectedMotion, currentReason)
    }

    // ------------------------------------------------ autonomous actuation

    /** set_angle: clamp, move the servo, record the position. */
    method SetAngle(angle: int)
      requires Valid()
      modifies this`servoPosition, this`autonomousMoves
      ensures Valid()
      ensures servoPosition == Clamp(angle)
      ensures autonomousMoves == old(autonomousMoves) + [Clamp(angle)]
    {
      var a := angle;
      if a < MinAngle {
        a := MinAngle;
      } else if a > MaxAngle {
        a := MaxAngle;
      }
      autonomousMoves := autonomousMoves + [a];
      servoPosition := a;
    }

    // -------------------------------------------------- override commands

    /** set_servo_angle: reject an angle outside [0, 180]; otherwise move there. */
    method SetServoAngle(angle: int) returns (resp: Response)
      requires Valid()
      modifies this`currentAngle, this`overrideMoves
      ensures Valid()
      ensures !InRange(angle) ==>
        resp == Error(RangeMessage) && currentAngle == old(currentAngle) && overrideMoves == old(overrideMoves)
      ensures InRange(angle) ==>
        resp == AngleSet(angle) && currentAngle == angle && overrideMoves == old(overrideMoves) + [angle]
    {
      if angle < MinAngle || angle > MaxAngle {
        return Error(RangeMessage);
      }
      overrideMoves := overrideMoves + [angle];
      currentAngle := angle;
      resp := AngleSet(angle);
    }

    /** set_preset_position: map the name to its angle and set it; an unknown
        name is an error and changes nothing. */
    method SetPresetPosition(position: string) returns (resp: Response)
      requires Valid()
      modifies this`currentAngle, this`overrideMoves
      ensures Valid()
      ensures PresetAngle(position).None? ==>
        resp == Error(PresetMessage) && currentAngle == old(currentAngle) && overrideMoves == old(overrideMoves)
      ensures PresetAngle(position).Some? ==>
        var a := PresetAngle(position).value;
        resp == PresetSet(a, position) && currentAngle == a && overrideMoves == old(overrideMoves) + [a]
    {
      var angle: int;
      if position == "far_left" {
        angle := 0;
      } else if position == "left" {
        angle := 45;
      } else if position == "center" {
        angle := 90;
      } else if position == "right" {
        angle := 135;
      } else if position == "far_right" {
        angle := 180;
      } else {
        return Error(PresetMessage);
      }
      resp := SetServoAngle(angle);
      if resp.AngleSet? {
        resp := PresetSet(resp.angle, position);
      }
    }

    /** sweep_servo: validate both ends, then walk the range from start
        toward end, sleeping `delay` after each move and leaving the API angle
        at the last angle visited. A delay that time.sleep refuses raises
        after the first move; the handler reports that error. */
    method SweepServo(start: int, end: int, step: int, delay: Delay) returns (resp: Response)
      requires Valid()
      modifies this`currentAngle, this`overrideMoves
      ensures Valid()
      ensures (SweepRejected(start, end) || step == 0) ==>
        currentAngle == old(currentAngle) && overrideMoves == old(overrideMoves)
      ensures SweepRejected(start, end) ==> resp == Error(RangeMessage)
      ensures !SweepRejected(start, end) && step == 0 ==> resp == Error(ZeroStepMessage)
      ensures !SweepRejected(start, end) && step != 0 ==>
        var visited := SweepAngles(start, end, step);
        var broken := visited != [] && SleepFailure(delay).Some?;
        var moved := if broken then visited[..1] else visited;
        && resp == (if broken then Error(SleepFailure(delay).value) else SweepDone(start, end))
        && overrideMoves == old(overrideMoves) + moved
        && currentAngle == if moved == [] then old(currentAngle) else moved[|moved| - 1]
    {
      if start < MinAngle || start > MaxAngle || end < MinAngle || end > MaxAngle {
        return Error(RangeMessage);
      }
      if step == 0 {
        return Error(ZeroStepMessage);
      }
      var angles := if start <= end then PyRange(start, end + 1, step) else PyRange(start, end - 1, -step);
      SweepStaysInRange(start, end, step);
      var failure := SleepFailure(delay);
      var i := 0;
      while i < |angles|
        invariant 0 <= i <= |angles|
        invariant i > 0 ==> failure.None?
        invariant overrideMoves == old(overrideMoves) + angles[..i]
        invariant currentAngle == if i == 0 then old(currentAngle) else angles[i - 1]
        invariant Valid()
      {
        overrideMoves := overrideMoves + [angles[i]];
        currentAngle := angles[i];
        if failure.Some? {
          return Error(failure.value);
        }
        i := i + 1;
      }
      assert angles[..i] == angles;
      resp := SweepDone(start, end);
    }

    // ---------------------------------------------------- main-loop steps

    /** The gas event callback: the pin reads high when there is no gas. */
    method GasEdge(pinHigh: bool)
      modifies this`gasDetected, this`alarmOn
      ensures gasDetected == !pinHigh && alarmOn == gasDetected
    {
      gasDetected := !pinHigh;
      alarmOn := gasDetected;
    }

    /** The polling fallback, at most every half second and only when no edge
        event was registered: a changed reading updates the gas state and the
        alarm together. */
    method PollGas(now: int, eventDetected: bool, gasReading: bool)
      modifies this`gasDetected, this`alarmOn, this`lastGasCheckTime
      ensures now - old(lastGasCheckTime) <= GasPollMillis ==>
        gasDetected == old(gasDetected) && alarmOn == old(alarmOn) && lastGasCheckTime == old(lastGasCheckTime)
      ensures now - old(lastGasCheckTime) > GasPollMillis ==> lastGasCheckTime == now
      ensures now - old(lastGasCheckTime) > GasPollMillis && !eventDetected && gasReading != old(gasDetected) ==>
        gasDetected == gasReading && alarmOn == gasReading
      ensures !(now - old(lastGasCheckTime) > GasPollMillis && !eventDetected && gasReading != old(gasDetected)) ==>
        gasDetected == old(gasDetected) && alarmOn == old(alarmOn)
      // once the alarm agrees with the gas state, polling keeps it so
      ensures old(alarmOn == gasDetected) ==> alarmOn == gasDetected
    {
      if now - lastGasCheckTime > GasPollMillis {
        if !eventDetected {
          if gasReading != gasDetected {
            gasDetected := gasReading;
            alarmOn := gasDetected;
          }
        }
        lastGasCheckTime := now;
      }
    }

    /** Motion debounce: a rising edge counts, and moves the last-motion time,
        only when more than a second has passed since the last counted one. */
    method MotionStep(now: int, motion: bool)
      modifies this`motionCount, this`lastMotionTime, this`lastDetectedMotion
      ensures var counted := motion && !old(lastDetectedMotion) && now - old(lastMotionTime) > MotionDebounceMillis;
        && motionCount == old(motionCount) + (if counted then 1 else 0)
        && lastMotionTime == (if counted then now else old(lastMotionTime))
      ensures lastDetectedMotion == motion
    {
      if motion && !lastDetectedMotion {
        if now - lastMotionTime > MotionDebounceMillis {
          motionCount := motionCount + 1;
          lastMotionTime := now;
        }
      }
      lastDetectedMotion := motion;
    }

    /** The rate-limited vent change: at most once per ten seconds, and only
        when the policy's angle differs from the servo position. */
    method VentStep(now: int, temp: int, humidity: int, motion: bool)
      requires Valid()
      modifies this`servoPosition, this`autonomousMoves, this`currentReason, this`lastVentChangeTime
      ensures Valid()
      ensures var d := VentPolicy.Decide(temp, humidity, motion, lastMotionTime, now, gasDetected);
        if now - old(lastVentChangeTime) > VentChangeMillis && d.angle != old(servoPosition) then
          && servoPosition == d.angle && currentReason == d.reason && lastVentChangeTime == now
          && autonomousMoves == old(autonomousMoves) + [d.angle]
        else
          && servoPosition == old(servoPosition) && currentReason == old(currentReason)
          && lastVentChangeTime == old(lastVentChangeTime) && autonomousMoves == old(autonomousMoves)
    {
      if now - lastVentChangeTime > VentChangeMillis {
        var d := VentPolicy.Decide(temp, humidity, motion, lastMotionTime, now, gasDetected);
        if d.angle != servoPosition {
          servoPosition := d.angle;
          SetAngle(servoPosition);
          currentReason := d.reason;
          lastVentChangeTime := now;
        }
      }
    }

    /** The telemetry gate: publish when more than five seconds have passed. */
    method TelemetryStep(now: int) returns (publish: bool)
      modifies this`lastPubnubTime
      ensures publish == (now - old(lastPubnubTime) > TelemetryMillis)
      ensures lastPubnubTime == if publish then now else old(lastPubnubTime)
    {
      publish := now - lastPubnubTime > TelemetryMillis;
      if publish {
        lastPubnubTime := now;
      }
    }

    /** A failed sensor read: count it, and warn after more than five in a row. */
    method RecordSensorFailure() returns (warn: bool)
      modifies this`sensorFailures
      ensures sensorFailures == old(sensorFailures) + 1
      ensures warn == (sensorFailures > MaxSilentFailures)
    {
      sensorFailures := sensorFailures + 1;
      warn := sensorFailures > MaxSilentFailures;
    }

    /** The state updates of a pass after a valid reading: reset the failure
        count, debounce motion, and maybe move the vent. */
    method ReadingStep(now: int, temp: int, humidity: int, motion: bool)
      requires Valid()
      modifies this`motionCount, this`lastMotionTime, this`lastDetectedMotion,
               this`servoPosition, this`autonomousMoves, this`currentReason, this`lastVentChangeTime,
               this`sensorFailures
      ensures Valid()
      ensures sensorFailures == 0 && lastDetectedMotion == motion
      // the debounce, then the policy over the debounced last-motion time
      ensures var counted := motion && !old(lastDetectedMotion) && now - old(lastMotionTime) > MotionDebounceMillis;
        && motionCount == old(motionCount) + (if counted then 1 else 0)
        && lastMotionTime == (if counted then now else old(lastMotionTime))
      ensures var d := VentPolicy.Decide(temp, humidity, motion, lastMotionTime, now, gasDetected);
        if now - old(lastVentChangeTime) > VentChangeMillis && d.angle != old(servoPosition) then
          && servoPosition == d.angle && currentReason == d.reason && lastVentChangeTime == now
          && autonomousMoves == old(autonomousMoves) + [d.angle]
        else
          && servoPosition == old(servoPosition) && currentReason == old(currentReason)
          && lastVentChangeTime == old(lastVentChangeTime) && autonomousMoves == old(autonomousMoves)
      ensures servoPosition != old(servoPosition) ==>
        now - old(lastVentChangeTime) > VentChangeMillis && lastVentChangeTime == now
    {
      sensorFailures := 0;
      MotionStep(now, motion);
      VentStep(now, temp, humidity, motion);
    }

    /** The rest of a pass after a valid reading: the state updates, then
        the display, then the telemetry gate. */
    method ReadingPass(now: int, mode: DisplayMode, clock: string, temp: int, humidity: int, motion: bool)
      returns (screen: Screen, telemetry: Option<Telemetry>)
      requires Valid()
      modifies this`motionCount, this`lastMotionTime, this`lastDetectedMotion,
               this`servoPosition, this`autonomousMoves, this`currentReason, this`lastVentChangeTime,
               this`lastPubnubTime, this`sensorFailures
      ensures Valid()
      ensures var counted := motion && !old(lastDetectedMotion) && now - old(lastMotionTime) > MotionDebounceMillis;
        && sensorFailures == 0
        && lastDetectedMotion == motion
        && motionCount == old(motionCount) + (if counted then 1 else 0)
        && lastMotionTime == (if counted then now else old(lastMotionTime))
      ensures var d := VentPolicy.Decide(temp, humidity, motion, lastMotionTime, now, gasDetected);
        if now - old(lastVentChangeTime) > VentChangeMillis && d.angle != old(servoPosition) then
          && servoPosition == d.angle && currentReason == d.reason && lastVentChangeTime == now
          && autonomousMoves == old(autonomousMoves) + [d.angle]
        else
          && servoPosition == old(servoPosition) && currentReason == old(currentReason)
          && lastVentChangeTime == old(lastVentChangeTime) && autonomousMoves == old(autonomousMoves)
      ensures screen == ScreenFor(mode, temp, humidity, clock, motion, servoPosition, currentReason, gasDetected)
      ensures lastPubnubTime == (if now - old(lastPubnubTime) > TelemetryMillis then now else old(lastPubnubTime))
      ensures telemetry == (if now - old(lastPubnubTime) > TelemetryMillis
                            then Some(Telemetry(temp, humidity, motion, gasDetected)) else None)
      ensures servoPosition != old(servoPosition) ==>
        now - old(lastVentChangeTime) > VentChangeMillis && lastVentChangeTime == now
    {
      ReadingStep(now, temp, humidity, motion);
      screen := ScreenFor(mode, temp, humidity, clock, motion, servoPosition, currentReason, gasDetected);
      var publish := TelemetryStep(now);
      telemetry := None;
      if publish {
        telemetry := Some(Telemetry(temp, humidity, motion, gasDetected));
      }
    }

    /** One pass of the main loop. The override state (currentAngle and its
        moves) is outside the frame: the loop never writes it. */
    method Tick(now: int, second: nat, clock: string, gasEventDetected: bool, gasReading: bool,
                read: SensorRead, motion: bool)
      returns (screen: Option<Screen>, telemetry: Option<Telemetry>)
      requires Valid()
      modifies this`gasDetected, this`alarmOn, this`lastGasCheckTime,
               this`motionCount, this`lastMotionTime, this`lastDetectedMotion,
               this`servoPosition, this`autonomousMoves, this`currentReason, this`lastVentChangeTime,
               this`lastPubnubTime, this`sensorFailures
      ensures Valid()
      // the gas poll, whatever the reading
      ensures now - old(lastGasCheckTime) <= GasPollMillis ==>
        gasDetected == old(gasDetected) && alarmOn == old(alarmOn) && lastGasCheckTime == old(lastGasCheckTime)
      ensures now - old(lastGasCheckTime) > GasPollMillis ==> lastGasCheckTime == now
      ensures now - old(lastGasCheckTime) > GasPollMillis && !gasEventDetected && gasReading != old(gasDetected) ==>
        gasDetected == gasReading && alarmOn == gasReading
      ensures !(now - old(lastGasCheckTime) > GasPollMillis && !gasEventDetected && gasReading != old(gasDetected)) ==>
        gasDetected == old(gasDetected) && alarmOn == old(alarmOn)
      ensures old(alarmOn == gasDetected) ==> alarmOn == gasDetected
      // a failed read
      ensures read.ReadFailed? ==>
        && sensorFailures == old(sensorFailures) + 1
        && screen == (if sensorFailures > MaxSilentFailures then Some(SensorErrorScreen) else None)
        && telemetry == None
        && motionCount == old(motionCount) && lastMotionTime == old(lastMotionTime)
        && lastDetectedMotion == old(lastDetectedMotion)
        && servoPosition == old(servoPosition) && currentReason == old(currentReason)
        && autonomousMoves == old(autonomousMoves)
        && lastVentChangeTime == old(lastVentChangeTime) && lastPubnubTime == old(lastPubnubTime)
      // a valid read: debounce, vent policy, display, telemetry, in that order
      ensures read.Reading? ==>
        var counted := motion && !old(lastDetectedMotion) && now - old(lastMotionTime) > MotionDebounceMillis;
        && sensorFailures == 0
        && lastDetectedMotion == motion
        && motionCount == old(motionCount) + (if counted then 1 else 0)
        && lastMotionTime == (if counted then now else old(lastMotionTime))
      ensures read.Reading? ==>
        var d := VentPolicy.Decide(read.temp, read.humidity, motion, lastMotionTime, now, gasDetected);
        if now - old(lastVentChangeTime) > VentChangeMillis && d.angle != old(servoPosition) then
          && servoPosition == d.angle && currentReason == d.reason && lastVentChangeTime == now
          && autonomousMoves == old(autonomousMoves) + [d.angle]
        else
          && servoPosition == old(servoPosition) && currentReason == old(currentReason)
          && lastVentChangeTime == old(lastVentChangeTime) && autonomousMoves == old(autonomousMoves)
      ensures read.Reading? ==>
        && screen == Some(ScreenFor(ModeOf(second), read.temp, read.humidity, clock, motion,
                                    servoPosition, currentReason, gasDetected))
        && lastPubnubTime == (if now - old(lastPubnubTime) > TelemetryMillis then now else old(lastPubnubTime))
        && telemetry == (if now - old(lastPubnubTime) > TelemetryMillis
                         then Some(Telemetry(read.temp, read.humidity, motion, gasDetected)) else None)
      ensures servoPosition != old(servoPosition) ==>
        now - old(lastVentChangeTime) > VentChangeMillis && lastVentChangeTime == now
    {
      PollGas(now, gasEventDetected, gasReading);
      screen, telemetry := None, None;
      match read
      case Reading(temp, humidity) =>
        var shown;
        shown, telemetry := ReadingPass(now, ModeOf(second), clock, temp, humidity, motion);
        screen := Some(shown);
      case ReadFailed =>
        var warn := RecordSensorFailure();
        if warn {
          screen := Some(SensorErrorScreen);
        }
    }
  }
}
