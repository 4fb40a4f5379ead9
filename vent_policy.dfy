/** The vent-position rule chain of the smart register: from the latest gas,
    temperature, humidity and motion readings to a servo angle and a reason.
    Times are integer milliseconds; temperature (degrees Celsius) and
    humidity (percent) are whole numbers. */
module VentPolicy {
  import opened Text

  const TempHigh := 26
  const TempLow := 18
  const HumidityHigh := 70
  /** Ten minutes without motion: the room is taken to be empty. */
  const NoMotionMillis := 600_000

  const Closed := 0
  const HalfOpen := 90
  const FullyOpen := 180

  const GasReason := "Gas/smoke detected!"
  const DefaultReason := "Normal ventilation"

  datatype Decision = Decision(angle: int, reason: string)

  /** The room counts as empty: no motion now and none for more than ten minutes. */
  predicate RoomEmpty(motion: bool, lastMotionTime: int, now: int) {
    !motion && now - lastMotionTime > NoMotionMillis
  }

  predicate NormalTemp(temp: int) {
    TempLow <= temp <= TempHigh
  }

  function HighTempReason(temp: int): string { "High temp (" + IntToString(temp) + "C)" }
  function LowTempReason(temp: int): string { "Low temp (" + IntToString(temp) + "C)" }
  function HumidityReason(humidity: int): string { "High humidity (" + IntToString(humidity) + "%)" }
  function NoMotionReason(idleMillis: int): string {
    "No motion (" + IntToString(idleMillis / 60_000) + "min) - ventilating"
  }

  /** The rules, applied in the source's order: gas returns at once; the
      temperature rule, the humidity rule (normal temperatures only) and the
      no-motion rule each overwrite what came before. */
  function Decide(temp: int, humidity: int, motion: bool, lastMotionTime: int, now: int, gas: bool)
    : (d: Decision)
    // gas wins over every other input
    ensures gas ==> d == Decision(FullyOpen, GasReason)
    // without gas: fully open exactly when some opening rule fires
    ensures !gas ==>
      (d.angle == FullyOpen <==>
         temp > TempHigh || (NormalTemp(temp) && humidity > HumidityHigh)
         || RoomEmpty(motion, lastMotionTime, now))
    // closed exactly for a low temperature that the no-motion rule does not override
    ensures d.angle == Closed <==>
      !gas && temp < TempLow && !RoomEmpty(motion, lastMotionTime, now)
    // half open exactly when no rule fires
    ensures d.angle == HalfOpen <==>
      !gas && NormalTemp(temp) && humidity <= HumidityHigh
      && !RoomEmpty(motion, lastMotionTime, now)
    ensures d.angle == Closed || d.angle == HalfOpen || d.angle == FullyOpen
    // the reason names the last rule that fired
    ensures d.angle == HalfOpen ==> d.reason == DefaultReason
    ensures !gas && RoomEmpty(motion, lastMotionTime, now) ==>
      d.reason == NoMotionReason(now - lastMotionTime)
    ensures !gas && !RoomEmpty(motion, lastMotionTime, now) ==>
      (temp > TempHigh ==> d.reason == HighTempReason(temp)) &&
      (temp < TempLow ==> d.reason == LowTempReason(temp)) &&
      (NormalTemp(temp) && humidity > HumidityHigh ==> d.reason == HumidityReason(humidity))
  {
    if gas then Decision(FullyOpen, GasReason)
    else
      var byTemp :=
        if temp > TempHigh then Decision(FullyOpen, HighTempReason(temp))
        else if temp < TempLow then Decision(Closed, LowTempReason(temp))
        else Decision(HalfOpen, DefaultReason);
      var byHumidity :=
        if NormalTemp(temp) && humidity > HumidityHigh then Decision(FullyOpen, HumidityReason(humidity))
        else byTemp;
      if RoomEmpty(motion, lastMotionTime, now) then
        Decision(FullyOpen, NoMotionReason(now - lastMotionTime))
      else byHumidity
  }

  /** Recent motion keeps a cold room closed: with motion now, or motion within
      the last ten minutes, a low temperature closes the vent. */
  lemma LowTempWithRecentMotionCloses(temp: int, humidity: int, motion: bool, lastMotionTime: int, now: int)
    requires temp < TempLow
    requires motion || now - lastMotionTime <= NoMotionMillis
    ensures Decide(temp, humidity, motion, lastMotionTime, now, false) == Decision(Closed, LowTempReason(temp))
  {
  }

  /** The no-motion rule opens a vent that the low-temperature rule closed. */
  lemma NoMotionOverridesLowTemp(temp: int, humidity: int, lastMotionTime: int, now: int)
    requires temp < TempLow && now - lastMotionTime > NoMotionMillis
    ensures Decide(temp, humidity, false, lastMotionTime, now, false).angle == FullyOpen
  {
  }
}
