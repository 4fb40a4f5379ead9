/** The browser dashboard's logic: coercing the published motion value,
    the "time ago" text, the chart's sliding window, the newest-first log
    and debug lists, the motion indicator's persistence timer, and the
    servo-control form's input checks. Times are integer milliseconds. */
module Dashboard {
  import opened Text
  import VentControl

  const MaxDataPoints := 20
  const MaxLogEntries := 50
  const MaxDebugEntries := 20
  const MotionPersistenceMillis := 10_000
  /** The dashboard ships with debugging off. */
  const DebugMode := false


  /** A JavaScript number: a finite value (where -0 === 0), NaN, or an infinity. */
  datatype Number = Finite(value: real) | NaN | Infinity(negative: bool)

  /** The JavaScript values a decoded message field can hold. */
  datatype JsValue =
    | JBool(b: bool)
    | JNumber(n: Number)
    | JString(s: string)
    | JNull
    | JUndefined
    | JObject

  /** Boolean(v). */
  function Truthy(v: JsValue): bool {
    match v
    case JBool(b) => b
    case JNumber(n) => n.Infinity? || (n.Finite? && n.value != 0.0)
    case JString(s) => s != ""
    case JNull => false
    case JUndefined => false
    case JObject => true
  }

  /** isMotionDetected: booleans as they are, numbers other than 0 (NaN too),
      the strings "1" and "true" in any letter case, anything else by its
      truthiness. */
  function IsMotionDetected(v: JsValue): (r: bool)
    ensures v.JBool? ==> r == v.b
    ensures v.JNumber? ==> (r <==> v.n != Finite(0.0))
    ensures v.JString? ==> (r <==> v.s == "1" || Lower(v.s) == "true")
    ensures !v.JBool? && !v.JNumber? && !v.JString? ==> r == Truthy(v)
  {
    match v
    case JBool(b) => b
    case JNumber(n) => n != Finite(0.0)
    case JString(s) => Lower(s) == "true" || s == "1"
    case _ => Truthy(v)
  }

  predicate EitherCase(c: char, lower: char, upper: char) {
    c == lower || c == upper
  }

  /** A string reports motion exactly when it is "1" or the four letters of
      "true", each in upper or lower case. */
  lemma MotionStringSpellings(s: string)
    ensures IsMotionDetected(JString(s)) <==>
      s == "1" ||
      (|s| == 4 && EitherCase(s[0], 't', 'T') && EitherCase(s[1], 'r', 'R')
                && EitherCase(s[2], 'u', 'U') && EitherCase(s[3], 'e', 'E'))
  {
    if |s| == 4 {
      var l := Lower(s);
      if l == "true" {
        assert LowerChar(s[0]) == 't' && LowerChar(s[1]) == 'r' && LowerChar(s[2]) == 'u' && LowerChar(s[3]) == 'e';
      }
      if EitherCase(s[0], 't', 'T') && EitherCase(s[1], 'r', 'R') && EitherCase(s[2], 'u', 'U') && EitherCase(s[3], 'e', 'E') {
        assert l == "true";
      }
    }
  }

  /** Where the coercion departs from plain truthiness: "false" and "0" are
      truthy strings but report no motion; NaN is falsy but reports motion. */
  lemma MotionDiffersFromTruthiness()
    ensures Truthy(JString("false")) && !IsMotionDetected(JString("false"))
    ensures Truthy(JString("0")) && !IsMotionDetected(JString("0"))
    ensures !Truthy(JNumber(NaN)) && IsMotionDetected(JNumber(NaN))
  {
    assert Lower("false") == "false";
  }

  // ------------------------------------------------------------- time ago

  /** Math.floor((now - last) / 1000): whole seconds elapsed. */
  function DiffSeconds(now: int, last: int): (d: int)
    ensures d * 1000 <= now - last < (d + 1) * 1000
  {
    (now - last) / 1000
  }

  datatype Unit = Seconds | Minutes | Hours
  datatype Elapsed = Elapsed(count: int, unit: Unit)

  /** The unit and count of the "time ago" text: seconds below a minute,
      whole minutes below an hour, whole hours otherwise. */
  function ElapsedOf(diffSeconds: int): (e: Elapsed)
    ensures e.unit == Seconds <==> diffSeconds < 60
    ensures e.unit == Minutes <==> 60 <= diffSeconds < 3600
    ensures e.unit == Seconds ==> e.count == diffSeconds
    ensures e.unit == Minutes ==>
      1 <= e.count <= 59 && e.count * 60 <= diffSeconds < (e.count + 1) * 60
    ensures e.unit == Hours ==>
      e.count >= 1 && e.count * 3600 <= diffSeconds < (e.count + 1) * 3600
  {
    if diffSeconds < 60 then Elapsed(diffSeconds, Seconds)
    else if diffSeconds < 3600 then Elapsed(diffSeconds / 60, Minutes)
    else Elapsed(diffSeconds / 3600, Hours)
  }

  function Plural(count: int): string {
    if count != 1 then "s" else ""
  }

  /** The text of updateLastDetectedTime. Seconds are always written
      "seconds", even for one; minutes and hours drop the "s" for exactly one. */
  function TimeAgo(diffSeconds: int): string {
    if diffSeconds < 60 then IntToString(diffSeconds) + " seconds ago"
    else if diffSeconds < 3600 then
      var minutes := diffSeconds / 60;
      IntToString(minutes) + " minute" + (if minutes != 1 then "s" else "") + " ago"
    else
      var hours := diffSeconds / 3600;
      IntToString(hours) + " hour" + (if hours != 1 then "s" else "") + " ago"
  }

  /** The words after the count: the unit, plural unless the count is one
      (seconds always plural), then "ago". */
  function UnitText(e: Elapsed): string {
    match e.unit
    case Seconds => " seconds ago"
    case Minutes => " minute" + Plural(e.count) + " ago"
    case Hours => " hour" + Plural(e.count) + " ago"
  }

  /** The text is the elapsed count followed by its unit words. */
  lemma TimeAgoFollowsElapsed(diffSeconds: int)
    ensures var e := ElapsedOf(diffSeconds);
      TimeAgo(diffSeconds) == IntToString(e.count) + UnitText(e)
  {
  }

  /** One minute and one hour are singular. */
  lemma TimeAgoSingular()
    ensures TimeAgo(60) == "1 minute ago"
    ensures TimeAgo(3600) == "1 hour ago"
  {
    assert Digit(1) == '1';
    assert IntToString(1) == "1";
  }

  /** Two minutes and two hours are plural. */
  lemma TimeAgoPlural()
    ensures TimeAgo(120) == "2 minutes ago"
    ensures TimeAgo(7200) == "2 hours ago"
  {
    assert 120 / 60 == 2 && 7200 / 3600 == 2;
    assert Digit(2) == '2';
    assert IntToString(2) == "2";
  }

  /** The "Last detected" line, or nothing while no motion has been seen. */
  function LastDetectedText(lastMotionTime: Option<int>, now: int): (r: Option<string>)
    ensures r.Some? <==> lastMotionTime.Some?
    // the whole seconds since the detection, in the unit ElapsedOf picks
    ensures r.Some? ==>
      var e := ElapsedOf(DiffSeconds(now, lastMotionTime.value));
      r.value == "Last detected: " + IntToString(e.count) + UnitText(e)
  {
    match lastMotionTime
    case None => None
    case Some(t) =>
      TimeAgoFollowsElapsed(DiffSeconds(now, t));
      Some("Last detected: " + TimeAgo(DiffSeconds(now, t)))
  }

  // ------------------------------------------------------ bounded windows

  /** The chart's window after one push: append, then drop the oldest when
      the window holds more than twenty points. */
  function Slide<T>(s: seq<T>, x: T): (r: seq<T>)
    ensures |r| == if |s| + 1 > MaxDataPoints then |s| else |s| + 1
    ensures |s| <= MaxDataPoints ==> |r| <= MaxDataPoints
    ensures r != [] && r[|r| - 1] == x
    ensures r == (s + [x])[|s| + 1 - |r|..]
  {
    var t := s + [x];
    if |t| > MaxDataPoints then t[1..] else t
  }

  /** The last n elements of s, or all of a shorter s. */
  function LastN<T>(s: seq<T>, n: nat): (r: seq<T>)
    ensures |r| == if |s| < n then |s| else n
  {
    if |s| <= n then s else s[|s| - n..]
  }

  function SlideAll<T>(s: seq<T>, xs: seq<T>): seq<T>
    decreases |xs|
  {
    if xs == [] then s else SlideAll(Slide(s, xs[0]), xs[1..])
  }

  /** Pushing any number of points into a window of at most twenty leaves the
      twenty most recent points, oldest first. */
  lemma {:induction false} SlideAllKeepsLatest<T>(s: seq<T>, xs: seq<T>)
    requires |s| <= MaxDataPoints
    ensures SlideAll(s, xs) == LastN(s + xs, MaxDataPoints)
    decreases |xs|
  {
    if xs == [] {
      assert s + xs == s;
    } else {
      var s' := Slide(s, xs[0]);
      SlideAllKeepsLatest(s', xs[1..]);
      assert s' + xs[1..] == LastN(s + [xs[0]], MaxDataPoints) + xs[1..];
      assert s + xs == (s + [xs[0]]) + xs[1..];
      LastNOfAppend(s + [xs[0]], xs[1..], MaxDataPoints);
    }
  }

  lemma LastNOfAppend<T>(a: seq<T>, b: seq<T>, n: nat)
    requires |a| <= n + 1
    ensures LastN(LastN(a, n) + b, n) == LastN(a + b, n)
  {
    if |a| > n {
      assert LastN(a, n) == a[1..];
      assert a + b == [a[0]] + (a[1..] + b);
    }
  }

  /** The newest-first list after one entry: insert at the front, then drop
      the last entry when the list holds more than `cap`. */
  function Prepend<T>(s: seq<T>, x: T, cap: nat): (r: seq<T>)
    ensures |r| == if |s| + 1 > cap then |s| else |s| + 1
    ensures |s| <= cap ==> |r| <= cap
    ensures cap > 0 ==> r != [] && r[0] == x
    ensures r == ([x] + s)[..|r|]
  {
    var t := [x] + s;
    if |t| > cap then t[..|t| - 1] else t
  }

  function Reverse<T>(s: seq<T>): (r: seq<T>)
    ensures |r| == |s|
    ensures forall i :: 0 <= i < |s| ==> r[i] == s[|s| - 1 - i]
  {
    if s == [] then [] else Reverse(s[1..]) + [s[0]]
  }

  function PrependAll<T>(s: seq<T>, xs: seq<T>, cap: nat): seq<T>
    decreases |xs|
  {
    if xs == [] then s else PrependAll(Prepend(s, xs[0], cap), xs[1..], cap)
  }

  /** Adding entries one by one to a list of at most `cap` keeps the `cap`
      newest entries, newest first. */
  lemma {:induction false} PrependAllKeepsNewest<T>(s: seq<T>, xs: seq<T>, cap: nat)
    requires |s| <= cap
    ensures PrependAll(s, xs, cap) == FirstN(Reverse(xs) + s, cap)
    decreases |xs|
  {
    if xs == [] {
      assert Reverse(xs) + s == s;
    } else {
      var s' := Prepend(s, xs[0], cap);
      PrependAllKeepsNewest(s', xs[1..], cap);
      assert Reverse(xs) == Reverse(xs[1..]) + [xs[0]];
      assert Reverse(xs) + s == Reverse(xs[1..]) + ([xs[0]] + s);
      FirstNOfPrefix(Reverse(xs[1..]), [xs[0]] + s, cap);
    }
  }

  function FirstN<T>(s: seq<T>, n: nat): (r: seq<T>)
    ensures |r| == if |s| < n then |s| else n
  {
    if |s| <= n then s else s[..n]
  }

  lemma FirstNOfPrefix<T>(a: seq<T>, b: seq<T>, n: nat)
    requires |b| <= n + 1
    ensures FirstN(a + FirstN(b, n), n) == FirstN(a + b, n)
  {
    if |b| > n {
      assert b == FirstN(b, n) + [b[|b| - 1]];
      assert a + b == (a + FirstN(b, n)) + [b[|b| - 1]];
    }
  }

  /** A chart: its labels and its data series, pushed and shifted together. */
  class Chart<T> {
    var labels: seq<string>
    var data: seq<T>

    ghost predicate Valid()
      reads this
    {
      |labels| == |data| <= MaxDataPoints
    }

    constructor ()
      ensures Valid() && labels == [] && data == []
    {
      labels, data := [], [];
    }

    /** addDataPoint: push to both arrays; when the labels exceed the maximum,
        shift both. */
    method AddDataPoint(timeLabel: string, value: T)
      modifies this
      ensures var dropped := |old(labels)| + 1 > MaxDataPoints;
        && labels == (if dropped then (old(labels) + [timeLabel])[1..] else old(labels) + [timeLabel])
        && data == (if dropped then (old(data) + [value])[1..] else old(data) + [value])
      ensures old(Valid()) ==>
        Valid() && labels == Slide(old(labels), timeLabel) && data == Slide(old(data), value)
    {
      labels := labels + [timeLabel];
      data := data + [value];
      if |labels| > MaxDataPoints {
        labels := labels[1..];
        data := data[1..];
      }
    }
  }

  /** A newest-first list of entries with a cap, which may be switched off. */
  class EntryList {
    const capacity: nat
    const enabled: bool
    var entries: seq<string>

    ghost predicate Valid()
      reads this
    {
      |entries| <= capacity
    }

    constructor (capacity: nat, enabled: bool)
      ensures Valid() && this.capacity == capacity && this.enabled == enabled && entries == []
    {
      this.capacity := capacity;
      this.enabled := enabled;
      entries := [];
    }

    /** Insert as the first child; remove the last child when over capacity. */
    method Add(entry: string)
      modifies this`entries
      ensures !enabled ==> entries == old(entries)
      ensures enabled ==> entries == Prepend(old(entries), entry, capacity)
      ensures old(Valid()) ==> Valid()
    {
      if !enabled {
        return;
      }
      var t := [entry] + entries;
      if |t| > capacity {
        t := t[..|t| - 1];
      }
      entries := t;
    }
  }

  /** The log panel (addLogEntry) and the debug panel (addDebugEntry). */
  method NewPanels() returns (log: EntryList, debug: EntryList)
    ensures fresh(log) && fresh(debug)
    ensures log.Valid() && log.capacity == MaxLogEntries && log.enabled && log.entries == []
    ensures debug.Valid() && debug.capacity == MaxDebugEntries && debug.enabled == DebugMode && debug.entries == []
  {
    log := new EntryList(MaxLogEntries, true);
    debug := new EntryList(MaxDebugEntries, DebugMode);
  }

  /** The motion indicator: "Motion Detected" persists for ten seconds after
      the last detection, through a reset timer that each detection replaces. */
  class MotionIndicator {
    var active: bool
    var lastMotionTime: Option<int>
    /** The most recently scheduled reset timer, identified by its due time;
        the variable keeps it after the timer has fired. */
    var timeoutId: Option<int>
    /** Whether that timer is still waiting to fire. */
    var timerPending: bool

    ghost predicate Valid()
      reads this
    {
      && (active <==> timerPending)
      && (timerPending ==>
            lastMotionTime.Some? && timeoutId == Some(lastMotionTime.value + MotionPersistenceMillis))
    }

    constructor ()
      ensures Valid() && !active && lastMotionTime.None? && timeoutId.None? && !timerPending
    {
      active, lastMotionTime, timeoutId, timerPending := false, None, None, false;
    }

    /** The motion part of the message handler; returns the "Last detected" line. */
    method OnMessage(now: int, motion: JsValue) returns (lastDetected: Option<string>)
      requires Valid()
      modifies this
      ensures Valid()
      ensures IsMotionDetected(motion) ==>
        && active && lastMotionTime == Some(now)
        && timeoutId == Some(now + MotionPersistenceMillis) && timerPending
      ensures !IsMotionDetected(motion) ==>
        active == old(active) && lastMotionTime == old(lastMotionTime)
        && timeoutId == old(timeoutId) && timerPending == old(timerPending)
      ensures lastDetected == LastDetectedText(lastMotionTime, now)
    {
      if IsMotionDetected(motion) {
        // clearTimeout of the previous timer, then a fresh one
        active := true;
        lastMotionTime := Some(now);
        timeoutId := Some(now + MotionPersistenceMillis);
        timerPending := true;
      }
      lastDetected := None;
      if lastMotionTime.Some? {
        lastDetected := Some("Last detected: " + TimeAgo(DiffSeconds(now, lastMotionTime.value)));
      }
    }

    /** The reset timer fires: back to "No Motion". */
    method OnTimeout(now: int) returns (lastDetected: Option<string>)
      requires Valid() && timerPending
      modifies this`active, this`timerPending
      ensures Valid() && !active && !timerPending
      ensures lastDetected == LastDetectedText(lastMotionTime, now)
    {
      active := false;
      timerPending := false;
      lastDetected := Some("Last detected: " + TimeAgo(DiffSeconds(now, lastMotionTime.value)));
    }
  }

  /** A detection overwrites "Just now" at once with the elapsed-time text. */
  lemma DetectionShowsZeroSeconds(now: int)
    ensures LastDetectedText(Some(now), now) == Some("Last detected: 0 seconds ago")
  {
    assert DiffSeconds(now, now) == 0;
    assert Digit(0) == '0';
    assert IntToString(0) == "0";
    assert TimeAgo(0) == "0 seconds ago";
    assert "Last detected: " + "0 seconds ago" == "Last detected: 0 seconds ago";
  }

  // --------------------------------------------------- servo-control form

  /** The angle input's change handler: parseInt, then clamp to [0, 180]. A
      value that parses to NaN (None) is left as it is, since both
      comparisons with NaN are false. */
  function ClampAngleInput(value: Option<int>): (r: Option<int>)
    ensures value.None? ==> r.None?
    ensures value.Some? ==> r == Some(VentControl.Clamp(value.value))
  {
    match value
    case None => None
    case Some(v) =>
      var w := if v < 0 then 0 else v;
      Some(if w > 180 then 180 else w)
  }

  /** The sweep button's checks, in order; None means the request is sent.
      A field that parses to NaN (None) passes every check. parseFloat can
      also give +Infinity or -Infinity for the delay, which `real` cannot
      hold; either one fails the delay check, as a value above 1 or below
      0.01 does here. */
  function SweepInputError(start: Option<int>, end: Option<int>, step: Option<int>, delay: Option<real>)
    : (r: Option<string>)
    ensures r.None? <==>
      && (start.Some? ==> 0 <= start.value <= 180)
      && (end.Some? ==> 0 <= end.value <= 180)
      && (step.Some? ==> 1 <= step.value <= 45)
      && (delay.Some? ==> 0.01 <= delay.value <= 1.0)
    ensures start.Some? && !(0 <= start.value <= 180) ==> r == Some("Start angle must be between 0 and 180")
  {
    if start.Some? && (start.value < 0 || start.value > 180) then Some("Start angle must be between 0 and 180")
    else if end.Some? && (end.value < 0 || end.value > 180) then Some("End angle must be between 0 and 180")
    else if step.Some? && (step.value <= 0 || step.value > 45) then Some("Step value must be between 1 and 45")
    else if delay.Some? && (delay.value < 0.01 || delay.value > 1.0) then Some("Delay must be between 0.01 and 1 seconds")
    else None
  }

  /** A sweep the form sends with numeric fields passes the server's checks
      and moves the servo, starting at the start angle. */
  lemma SentSweepRuns(start: int, end: int, step: int, delay: real)
    requires SweepInputError(Some(start), Some(end), Some(step), Some(delay)).None?
    ensures !VentControl.SweepRejected(start, end) && step != 0
    ensures var r := VentControl.SweepAngles(start, end, step); r != [] && r[0] == start
    ensures VentControl.SleepFailure(VentControl.Seconds(delay)).None?
  {
    VentControl.SweepShape(start, end, step);
  }

  /** The display name of a preset; anything else is shown as given. */
  function PositionName(position: string): (r: string)
    ensures position == "far_left" ==> r == "Far Left"
    ensures position == "left" ==> r == "Left"
    ensures position == "center" ==> r == "Center"
    ensures position == "right" ==> r == "Right"
    ensures position == "far_right" ==> r == "Far Right"
  {
    if position == "far_left" then "Far Left"
    else if position == "left" then "Left"
    else if position == "center" then "Center"
    else if position == "right" then "Right"
    else if position == "far_right" then "Far Right"
    else position
  }

  /** The dashboard renames exactly the presets the server accepts. */
  lemma PositionNameMatchesServerPresets(position: string)
    ensures PositionName(position) != position <==> VentControl.PresetAngle(position).Some?
  {
  }
}
