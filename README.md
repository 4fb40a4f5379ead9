# Smart register and bus-arrival service, modelled in Dafny

This project models four pieces of logic from a course repository of IoT projects.

- **The smart air register controller** (`backend.py`). A Raspberry Pi program drives an SG90 servo vent from gas, temperature, humidity and motion readings, and it accepts override commands over HTTP.
  - `VentPolicy` holds the vent rule chain `decide_vent_position`.
  - `VentControl` holds the program's global state as the class `Controller`. It has one method per override command (`set_servo_angle`, `set_preset_position`, `sweep_servo`) and one per main-loop step: gas polling, motion debounce, the rate-limited vent change, the telemetry gate and the sensor-failure counter. It also holds the pure parts: the clamp of `set_angle`, 16-character LCD padding, display-mode selection, the vent-status text, the preset table and Python's `range`.
  - The controller keeps the program's two angle variables apart. `currentAngle` (`current_angle`) is written only by the override commands. `servoPosition` (`servo_position`) is written only by the autonomous loop. Each command and each loop step is one atomic method. The clock is a parameter in integer milliseconds.
- **The browser dashboard** (`web1.js`), in module `Dashboard`:
  - the coercion of the published motion value;
  - the "time ago" text;
  - the chart's 20-point sliding window, kept in lockstep for labels and data;
  - the newest-first log list (cap 50) and debug list (cap 20, switched off);
  - the motion indicator's persistence timer;
  - the form's angle clamp and sweep validation;
  - the preset display names.
- **Next-bus notifications** (`get_dynamic.go`), in module `BusDynamic`, over a decoded GTFS Realtime trip-update feed:
  - `GetAll` folds the feed into a map from route+stop to the earliest arrival;
  - `GetNotificationsV2` turns subscriptions into one notification per topic from that map;
  - `GetNotifications` is the older search, one candidate per trip.
- **The static lookup tables** (`get_static.go`), in module `BusStatic`. These are the route-id → short-name table and the stop-id → name table. They are built from a header map and a read loop that stops at the first failed read.

`Text` holds the decimal rendering of integers and the ASCII lower-casing that the modules share.

## Model

| member | source | states |
|---|---|---|
| Text.NatToString | Group10/service/bus_info/get_static.go:40 | The decimal text of a number is non-empty and all digits. It has one character exactly for numbers below 10, and starts with '0' only for 0 itself. |
| Text.NatToStringValue | Group10/service/bus_info/get_static.go:40 | Reading the decimal text back as digits gives the number itself. |
| Text.NatToStringInjective | Group10/service/bus_info/get_static.go:39-41 | Distinct column numbers have distinct decimal texts. |
| Text.IntToString | iot-smart-register-master/backend/backend.py:392 | An integer's text starts with '-' exactly when the integer is negative. |
| Text.IntToStringValue | iot-smart-register-master/backend/backend.py:392 | A non-negative integer's text is its digits and reads back as the integer. A negative one is '-' followed by digits that read back as its magnitude. |
| Text.Lower | iot-smart-register-master/frontend/web1.js:144 | Lower-casing keeps the length and lower-cases each ASCII capital in place. |
| VentPolicy.Decide | iot-smart-register-master/backend/backend.py:371-409 | With gas the result is (180, "Gas/smoke detected!") whatever the other inputs are. Without gas the vent is fully open exactly when one of these fires: temperature above 26, humidity above 70 at a normal temperature, or no motion now and none for more than 10 minutes. It is closed exactly for a temperature below 18 that the no-motion rule does not override. It is half open (with "Normal ventilation") exactly when no rule fires. The angle is always 0, 90 or 180, and the reason names the last rule that fired. |
| VentPolicy.LowTempWithRecentMotionCloses | iot-smart-register-master/backend/backend.py:393-395 | Below 18 degrees, with motion now or within the last 10 minutes, the vent closes with the low-temperature reason. |
| VentPolicy.NoMotionOverridesLowTemp | iot-smart-register-master/backend/backend.py:403-407 | An empty room opens the vent fully even when the temperature rule closed it. |
| VentControl.Clamp | iot-smart-register-master/backend/backend.py:210-214 | The clamp gives the angle of [0, 180] nearest to the request, and keeps an angle already in range. |
| VentControl.LcdLine | iot-smart-register-master/backend/backend.py:165-171 | Exactly 16 characters go to the display: the message padded with spaces, or its first 16 characters when it is longer. |
| VentControl.LcdLineIdempotent | iot-smart-register-master/backend/backend.py:167 | Padding an already padded line changes nothing. |
| VentControl.LastFive | iot-smart-register-master/backend/backend.py:657 | Python's `s[-5:]` gives the last five characters, or all of a shorter string. |
| VentControl.ModeOf | iot-smart-register-master/backend/backend.py:621-623 | The display view depends only on the clock second modulo 20. Each of the four views takes five consecutive seconds. |
| VentControl.VentStatus | iot-smart-register-master/backend/backend.py:666-668 | Position 0 reads "Off". A position strictly between 0 and 180 reads as the floor of its percentage of 180 plus "%". Any other position reads "On". |
| VentControl.PolicyPositionsStatus | iot-smart-register-master/backend/backend.py:666-668 | The three policy positions 0, 90 and 180 read "Off", "50%" and "On". |
| VentControl.ScreenFor | iot-smart-register-master/backend/backend.py:654-675 | Both display lines of every view are exactly 16 characters. |
| VentControl.VentViewShowsReason | iot-smart-register-master/backend/backend.py:665-671 | The vent view's second line is "Reason: " followed by the first eight characters of the reason, padded with blanks when the reason is shorter. |
| VentControl.StatusViews | iot-smart-register-master/backend/backend.py:661-664 | The motion view reads "Motion Detector" over "Status: ACTIVE" or "Status: Inactive". The gas view (lines 672-675) reads "Gas Detector" over "Status: DANGER!" or "Status: Normal". |
| VentControl.PresetAngle | iot-smart-register-master/backend/backend.py:247-258 | Exactly the five preset names map to an angle. Every preset angle is in range and a multiple of 45. |
| VentControl.PresetRoundTrip | iot-smart-register-master/backend/backend.py:247-256 | Preset names and preset angles correspond one to one (both directions). |
| VentControl.PyRange | iot-smart-register-master/backend/backend.py:280-283 | Python's `range` is empty exactly when it starts at or past its bound, and otherwise starts at `lo`. |
| VentControl.PyRangeBounds | iot-smart-register-master/backend/backend.py:280-283 | Every element of `range` lies in [lo, hi) for a positive step and in (hi, lo] for a negative one. |
| VentControl.PyRangeStep | iot-smart-register-master/backend/backend.py:280-283 | Consecutive elements of `range` differ by exactly `step`. |
| VentControl.PyRangeMonotone | iot-smart-register-master/backend/backend.py:280-283 | `range` is strictly increasing for a positive step and strictly decreasing for a negative one. |
| VentControl.PyRangeLast | iot-smart-register-master/backend/backend.py:280-283 | One more step past the last element of `range` reaches or passes the bound. |
| VentControl.SweepShape | iot-smart-register-master/backend/backend.py:279-289 | A sweep with a positive step starts at the start angle and moves by exactly `step`. It stays between start and end, and stops less than one step short of the end. |
| VentControl.SweepMonotone | iot-smart-register-master/backend/backend.py:280-283 | The visited angles increase when start <= end and decrease otherwise. |
| VentControl.SweepNegativeStepEmpty | iot-smart-register-master/backend/backend.py:280-286 | A negative step visits no angle in either direction. |
| VentControl.SweepStaysInRange | iot-smart-register-master/backend/backend.py:276-283 | A sweep whose ends are in [0, 180] only visits angles in [0, 180]. |
| VentControl.WarnAfterSixFailures | iot-smart-register-master/backend/backend.py:685-691 | The intended counter exceeds 5 exactly when the last six reads all failed. |
| VentControl.FailureCounterCountsTrailing | iot-smart-register-master/backend/backend.py:685-691 | The intended counter is at least n exactly when the last n reads all failed. |
| VentControl.FailureWarningAsWritten | iot-smart-register-master/backend/backend.py:685-689 | As written, the counter is reset before each increment, so the warning never fires. |
| VentControl.SixFailuresFinding | iot-smart-register-master/backend/backend.py:685-691 | Six failed reads in a row: the intended counter warns and the code as written does not. |
| VentControl.Controller.constructor | iot-smart-register-master/backend/backend.py:579-589 | The start-up state: both angles at 90 (one autonomous move to 90), last motion at start-up time, no motion seen, reason "Initial state", every timer at 0, and gas from the first reading. |
| VentControl.Controller.Angle | iot-smart-register-master/backend/backend.py:448-450 | `/api/get_angle` reports the API angle, which is always in range. |
| VentControl.Controller.SystemStatus | iot-smart-register-master/backend/backend.py:453-461 | `/api/system_status` reports the API angle, not the servo position, together with gas, motion and reason. |
| VentControl.Controller.SetAngle | iot-smart-register-master/backend/backend.py:206-223 | The servo position becomes the clamped angle and one autonomous move is recorded. The API angle is outside the frame. |
| VentControl.Controller.SetServoAngle | iot-smart-register-master/backend/backend.py:225-240 | An angle out of range gives the range error and changes nothing. Otherwise the API angle becomes the angle and the response carries it. The servo position is outside the frame. |
| VentControl.Controller.SetPresetPosition | iot-smart-register-master/backend/backend.py:244-264 | An unknown name gives "Invalid preset position" and changes nothing. A preset sets its angle, and the response carries the angle and the name. |
| VentControl.Controller.SweepServo | iot-smart-register-master/backend/backend.py:266-297 | An end out of range gives the range error before any move, and so does a zero step. Otherwise the servo is commanded to exactly the range angles in order, and the response is a success. The API angle ends at the last angle visited, and is unchanged when the range is empty. A negative or NaN delay is the exception: the sweep stops after the first move, with the API angle at the start, and the response carries the sleep error. |
| VentControl.SleepFailure | iot-smart-register-master/backend/backend.py:290 | `time.sleep` fails exactly for a NaN or negative delay. |
| VentControl.Controller.GasEdge | iot-smart-register-master/backend/backend.py:332-346 | A pin edge sets the gas state to "pin low", and the alarm follows it. |
| VentControl.Controller.PollGas | iot-smart-register-master/backend/backend.py:602-617 | When more than 0.5 s has passed and no edge event is pending, a changed reading updates gas and alarm together. The check time moves only when the interval has elapsed. The step keeps the alarm in agreement with the gas state. |
| VentControl.Controller.MotionStep | iot-smart-register-master/backend/backend.py:630-638 | The motion count rises by one, and the last-motion time moves to now, exactly on a rising edge more than 1 s after the last counted motion. The last reading always becomes the current one. |
| VentControl.Controller.VentStep | iot-smart-register-master/backend/backend.py:641-652 | Servo position, reason and change time all change exactly when more than 10 s have passed and the policy's angle differs from the servo position. Otherwise all three stay as they were. |
| VentControl.Controller.TelemetryStep | iot-smart-register-master/backend/backend.py:679-682 | It publishes exactly when more than 5 s have passed, and then moves the publish time to now. |
| VentControl.Controller.RecordSensorFailure | iot-smart-register-master/backend/backend.py:684-691 | The corrected counter: a failed read adds one, and the warning is on when the count exceeds 5. |
| VentControl.Controller.Tick | iot-smart-register-master/backend/backend.py:597-694 | One loop pass first polls the gas sensor as PollGas states. A valid read then sets motion count, last motion time, last reading, servo position, reason and change time as MotionStep and VentStep state. It shows the view for the clock second, and moves the publish time and publishes exactly when the 5-second gate opens. A failed read publishes nothing and leaves motion and vent state alone. It uses the corrected failure counter of the Findings row: the failure is added, and the sensor-error screen shows after more than five in a row. A valid read resets that counter. The loop never writes the API angle. |
| VentControl.Controller.ReadingPass | iot-smart-register-master/backend/backend.py:625-682 | The valid-read branch of the loop: the motion and vent updates, then the screen for the view and the telemetry gate with its payload. |
| VentControl.Controller.ReadingStep | iot-smart-register-master/backend/backend.py:625-652 | After a valid read the failure count is 0 and the motion reading is recorded. Motion count and last motion time follow the debounced rising edge. Servo position, reason and change time follow the policy's decision on that read, made with the updated last motion time and the current gas state, once the 10-second interval has passed. |
| Dashboard.IsMotionDetected | iot-smart-register-master/frontend/web1.js:137-147 | A boolean is taken as it is. A number counts when it is not 0, so NaN counts. A string counts exactly when it is "1" or lower-cases to "true". Anything else is taken by its truthiness. |
| Dashboard.MotionStringSpellings | iot-smart-register-master/frontend/web1.js:144 | A string counts as motion exactly when it is "1" or "true" in some mix of letter cases. |
| Dashboard.MotionDiffersFromTruthiness | iot-smart-register-master/frontend/web1.js:137-147 | "false" and "0" are truthy but not motion. NaN is falsy but is motion. |
| Dashboard.DiffSeconds | iot-smart-register-master/frontend/web1.js:154 | The elapsed whole seconds are the floor of the elapsed milliseconds over 1000. |
| Dashboard.ElapsedOf | iot-smart-register-master/frontend/web1.js:157-165 | Under 60 s the text counts seconds. From 60 s to under 3600 s it counts floor(d/60) minutes, in [1, 59]. Otherwise it counts floor(d/3600) hours, at least 1. |
| Dashboard.TimeAgoFollowsElapsed | iot-smart-register-master/frontend/web1.js:157-165 | The text is the count, a unit that takes "s" unless the count is exactly 1 (seconds always plural), and "ago". |
| Dashboard.TimeAgoSingular | iot-smart-register-master/frontend/web1.js:159-165 | 60 and 3600 seconds read "1 minute ago" and "1 hour ago": one of a unit is singular. |
| Dashboard.TimeAgoPlural | iot-smart-register-master/frontend/web1.js:159-165 | 120 and 7200 seconds read "2 minutes ago" and "2 hours ago": more than one is plural. |
| Dashboard.LastDetectedText | iot-smart-register-master/frontend/web1.js:150-167 | There is a "Last detected" text exactly when a detection time is set. It gives the count and the unit of the elapsed whole seconds: seconds under a minute, then minutes, then hours. |
| Dashboard.Slide | iot-smart-register-master/frontend/web1.js:171-182 | The new value is last, the oldest value is dropped when the window would exceed 20, and a window of at most 20 stays at most 20. |
| Dashboard.SlideAllKeepsLatest | iot-smart-register-master/frontend/web1.js:171-182 | After any sequence of data points the window holds exactly the latest 20 values in arrival order. |
| Dashboard.Prepend | iot-smart-register-master/frontend/web1.js:197-203 | The new entry is first, the last entry is removed when the list would exceed the cap, and a list within the cap stays within it. |
| Dashboard.PrependAllKeepsNewest | iot-smart-register-master/frontend/web1.js:197-203 | After any sequence of entries the list holds the newest `cap` entries, newest first. |
| Dashboard.Chart.AddDataPoint | iot-smart-register-master/frontend/web1.js:171-182 | Both arrays get the new point, and both are shifted when the labels exceed 20, so labels and data keep equal length. |
| Dashboard.EntryList.Add | iot-smart-register-master/frontend/web1.js:29-42 | A disabled list changes nothing. An enabled list becomes the capped, newest-first insertion, and the cap is preserved. |
| Dashboard.NewPanels | iot-smart-register-master/frontend/web1.js:21-42 | The log list is enabled with cap 50. The debug list has cap 20 and is switched off, so adding to it is a no-op. |
| Dashboard.MotionIndicator.OnMessage | iot-smart-register-master/frontend/web1.js:535-570 | A message with motion turns the indicator on, records the time and replaces the reset timer. Any other message leaves the indicator as it was. The "Last detected" line is the elapsed text of the last detection. |
| Dashboard.MotionIndicator.OnTimeout | iot-smart-register-master/frontend/web1.js:556-564 | The reset timer turns the indicator off and refreshes the "Last detected" line. |
| Dashboard.DetectionShowsZeroSeconds | iot-smart-register-master/frontend/web1.js:551-570 | In the same message, "Just now" is overwritten by "Last detected: 0 seconds ago". |
| Dashboard.ClampAngleInput | iot-smart-register-master/frontend/web1.js:389-396 | A numeric input is clamped exactly as the server clamps. A NaN input passes through unchanged. |
| Dashboard.SweepInputError | iot-smart-register-master/frontend/web1.js:443-467 | A sweep is sent exactly when each numeric field is within its bounds: ends in [0, 180], step in [1, 45], delay in [0.01, 1]. A NaN field passes its check. The start check reports first. |
| Dashboard.SentSweepRuns | iot-smart-register-master/frontend/web1.js:449-462 | Every numeric sweep the form sends passes the server's checks and visits the start angle first. |
| Dashboard.PositionName | iot-smart-register-master/frontend/web1.js:362-371 | The five preset keys get their display names. |
| Dashboard.PositionNameMatchesServerPresets | iot-smart-register-master/frontend/web1.js:362-371 | The dashboard renames exactly the names the server accepts as presets, and returns every other input unchanged. |
| BusDynamic.EarliestArrivalsBound | Group10/service/bus_info/get_dynamic.go:239-246 | The keys are exactly the route+stop keys seen, and no arrival seen under a key is earlier than the stored time. |
| BusDynamic.EarliestArrivalsAttained | Group10/service/bus_info/get_dynamic.go:239-246 | Each stored time is an arrival seen under its key. |
| BusDynamic.SightingsComeFromFeed | Group10/service/bus_info/get_dynamic.go:221-238 | Every recorded arrival comes from an entity with a trip update and a trip, and from a stop-time update with an arrival. The others are skipped. |
| BusDynamic.UpdateSightingsHas | Group10/service/bus_info/get_dynamic.go:231-246 | Every stop-time update of a trip that has an arrival is recorded, under its route+stop key. |
| BusDynamic.FeedArrivalsAreSighted | Group10/service/bus_info/get_dynamic.go:221-247 | Conversely, every arrival of an entity with a trip update and a trip is recorded. |
| BusDynamic.GetAllBelowEveryArrival | Group10/service/bus_info/get_dynamic.go:221-247 | Every arrival in the feed has its key in the result, and the stored time is no later than that arrival. |
| BusDynamic.GetAll | Group10/service/bus_info/get_dynamic.go:208-250 | The loop computes the earliest-arrival fold over every arrival of the feed in order. |
| BusDynamic.AddTripArrivals | Group10/service/bus_info/get_dynamic.go:230-247 | Folding one trip's stop-time updates into an earliest-arrival map extends the fold by exactly that trip's arrivals. |
| BusDynamic.ByTopicKeys | Group10/service/bus_info/get_dynamic.go:146-170 | There is one result per subscription topic and no other key. |
| BusDynamic.LastEntryPerTopicWins | Group10/service/bus_info/get_dynamic.go:146-170 | A later subscription with the same topic overwrites an earlier one. |
| BusDynamic.GetNotificationsV2 | Group10/service/bus_info/get_dynamic.go:146-171 | The results are the per-topic map of the per-subscription notifications, and the error is always nil. |
| BusDynamic.SubscriptionV2 | Group10/service/bus_info/get_dynamic.go:151-165 | The notification is valid exactly when the route+stop key is in the map and its arrival is not in the past. A valid one carries the route and stop names and the wait until the arrival. Otherwise it is the zero Notification. |
| BusDynamic.V2EntryForTopic | Group10/service/bus_info/get_dynamic.go:150-167 | A topic's notification comes from the last subscription with that topic. It is valid exactly when the route+stop key is in the map and the arrival is not in the past. A valid one carries the non-negative wait and both names, with "" for a missing id. An invalid one is the zero Notification. |
| BusDynamic.KeysCollide | Group10/service/bus_info/get_dynamic.go:154 | Route "1" at stop "23" and route "12" at stop "3" read the same map entry. |
| BusDynamic.FirstAtStop | Group10/service/bus_info/get_dynamic.go:99-112 | The scan finds the first stop-time update at the stop, or reports that none is there. |
| BusDynamic.Candidates | Group10/service/bus_info/get_dynamic.go:87-114 | Each entity contributes at most one candidate. |
| BusDynamic.MissingArrivalHidesLaterMatch | Group10/service/bus_info/get_dynamic.go:99-112 | When the first update at the stop has no arrival, the trip gives no candidate, even when a later update at that stop has one. |
| BusDynamic.EarliestIsMinimum | Group10/service/bus_info/get_dynamic.go:116-126 | When every trip id is non-empty, the scan picks a candidate with the minimum arrival. |
| BusDynamic.EmptyTripIdIsReplaced | Group10/service/bus_info/get_dynamic.go:123 | The empty trip id doubles as "unset", so a candidate with an empty trip id is replaced even by a later arrival. |
| BusDynamic.ByTripReportsEarliest | Group10/service/bus_info/get_dynamic.go:116-137 | When trip ids are non-empty, a notification is valid exactly when the minimum candidate arrival is not in the past. Its wait is then at most every candidate's wait. |
| BusDynamic.EarliestNotificationSpec | Group10/service/bus_info/get_dynamic.go:116-137 | For any candidates with non-empty trip ids, the notification is valid exactly when an earliest candidate is not in the past. Its wait is then at most every candidate's wait. |
| BusDynamic.MatchingTrips | Group10/service/bus_info/get_dynamic.go:82-114 | The scan over the entities collects exactly the candidates of the feed, in feed order. |
| BusDynamic.EntityCandidate | Group10/service/bus_info/get_dynamic.go:88-113 | One entity yields the candidate of its first update at the subscribed stop, and only when its trip is on the subscribed route and that update has an arrival. |
| BusDynamic.EarliestTrip | Group10/service/bus_info/get_dynamic.go:118-126 | The loop computes the earliest-trip scan. |
| BusDynamic.SubscriptionByTrip | Group10/service/bus_info/get_dynamic.go:79-138 | The loop body gives the per-trip notification of one subscription. |
| BusDynamic.GetNotifications | Group10/service/bus_info/get_dynamic.go:64-144 | A read or decode failure gives its error and no results. Otherwise the results are the per-topic map of per-trip notifications and the error is nil. |
| BusStatic.HeaderMapKeys | Group10/service/bus_info/get_static.go:37-43 | The header map has a key for every column and no other: the header text, or "NULL" plus the column number for an empty header. |
| BusStatic.HeaderMapLastColumn | Group10/service/bus_info/get_static.go:79-85 | A duplicated header maps to its last column. |
| BusStatic.EmptyColumnsDistinct | Group10/service/bus_info/get_static.go:39-41 | Distinct empty header cells get distinct keys. |
| BusStatic.HeaderIndexes | Group10/service/bus_info/get_static.go:37-43 | The header loop builds the header map. |
| BusStatic.ColumnIndexSpec | Group10/service/bus_info/get_static.go:47-48 | The column used for a name is its last column when some column carries it, and column 0 when none does. It is always a valid column. |
| BusStatic.MissingHeaderReadsFirstColumn | Group10/service/bus_info/get_static.go:87-88 | Without a `route_id` header both lookups read column 0, so ids and names come from the same column. |
| BusStatic.DataRows | Group10/service/bus_info/get_static.go:50-54 | The loop takes the longest run of records of header width. It stops at the first syntax error, the first record of another width, or the end of the file. |
| BusStatic.RowsAfterFailureIgnored | Group10/service/bus_info/get_static.go:92-96 | Records after the first failed read never affect the table. |
| BusStatic.IdToName | Group10/service/bus_info/get_static.go:56-59 | The ids of the table are exactly the ids of the data rows. |
| BusStatic.LastRowWins | Group10/service/bus_info/get_static.go:98-101 | Each id maps to the name in the last row that carries it. |
| BusStatic.ReadTable | Group10/service/bus_info/get_static.go:22-64 | A failed first read is fatal. Otherwise the result is the id-to-name fold over the data rows, using the header's columns. |
| BusStatic.GetRoutes | Group10/service/bus_info/get_static.go:22-64 | The route table uses the `route_id` and `route_short_name` columns. |
| BusStatic.GetStops | Group10/service/bus_info/get_static.go:66-104 | The stop table uses the `stop_id` and `stop_name` columns. |

## Left out

- Hardware I/O in `backend.py` is not modelled: LCD bit-banging, PWM duty cycles, servo settle delays, and the DHT11/PIR/MQ-2 driver reads. Sensor readings, the edge-event flag and the gas pin are method parameters. The servo moves are recorded in the ghost sequences `overrideMoves` and `autonomousMoves`.
- Float conversions are not modelled: `angle_to_duty_cycle` and `pulse_width_to_duty_cycle`. The sweep delay is a finite real or NaN, and the sleep itself takes no time.
- VentControl.Controller.SweepServo: an infinite delay or one too large for the platform clock, which makes `time.sleep` raise OverflowError, is not modelled. Only the NaN and negative delays that make it raise ValueError are.
- VentControl.Controller.Tick: it uses the corrected consecutive-failure counter (see Findings). The source sets its counter to 0 before adding 1 on every failed read (lines 685-686), so it stays at 1 and never warns. The source also never resets a counter on a valid read.
- VentControl.Controller.ReadingStep: it resets the corrected failure counter on a valid read. The loop at lines 625-682 has no such reset, because its counter is a local of the failure branch.
- VentControl.VentStatus: it computes the percentage as an integer floor of position*100/180. The source computes `int(position/180*100)` in floating point, which may differ by one where the float product falls just below a whole number. The policy's positions 0, 90 and 180 are exact either way.
- VentPolicy.Decide: temperature and humidity are whole numbers. The driver reports them as numbers that the reason text prints as they are.
- Time in `backend.py` is whole milliseconds, while the source uses float seconds (`time.time()`). Every threshold (0.5, 1, 5, 10 and 600 s) is converted exactly.
- The HTTP server is not modelled: handler plumbing, CORS headers, JSON decoding, the `int()`/`float()` conversions of request fields with their exception texts, `get_ip_address` and PubNub publishing. The commands take integers. Telemetry returns the published payload instead of sending it.
- Concurrency is not modelled. The web-server thread runs beside the main loop without a lock, and every command and loop step is one atomic method.
- `display_toggle_time` and `gas_detected_last_state` are written and never read, so they are not fields.
- The browser side of `web1.js` is not modelled: the DOM, Chart.js rendering, PubNub subscriptions, `fetch` calls and the timers, beyond the indicator's pending reset timer. Log and debug entries are opaque strings, so their message formatting (`toFixed`, `toLocaleTimeString`) is not modelled.
- Text.Lower: ASCII letters only. JavaScript's `toLowerCase` also lower-cases non-ASCII letters, which does not change whether a string equals "true".
- File reading, HTTP download, protobuf decoding and `ShowAll`'s printing in `get_dynamic.go` are not modelled. The decoded feed and the current Unix time are parameters, and the name tables `RouteIdToName`/`StopIdToName` are parameters too.
- BusDynamic.GetAll: it takes the decoded feed. The source's `log.Fatalf` exits on a read or decode failure are not modelled.
- BusDynamic.GetNotifications: the current time is read once per call. The source reads it once per subscription. The error texts omit the wrapped error detail.
- BusDynamic.GetNotificationsV2: the current time is a parameter read once per call. The source calls `time.Now()` once per subscription (line 156), so subscriptions near an arrival may be judged against slightly different times.
- Go's `int64` arithmetic is not modelled: arrival times and waits are unbounded integers, so `arrival - now` never overflows.
- Opening `routes.csv`/`stops.csv` and CSV tokenising are not modelled (a failed open is a fatal exit). The records come in as the tokeniser yields them. The reader's rule that every record has as many fields as the first, and its syntax errors, are modelled.
- The `init()` hook that fills `RouteIdToName`/`StopIdToName` at start-up is not modelled; the tables are passed to the notification functions.

## Findings

| source | as written | input that shows it | evidently intended | confidence | as-written member | corrected member |
|---|---|---|---|---|---|---|
| iot-smart-register-master/backend/backend.py:685-691 | `error_count` is set to 0 and then incremented on every failed read, so it is always 1. The "Sensor Error!" screen, which needs a count above 5, never appears. | Six consecutive failed DHT11 reads (VentControl.SixFailuresFinding). | Count consecutive failed reads, reset the count on a valid read, and show the warning once it exceeds 5. | not executed | VentControl.FailureWarningAsWritten | VentControl.Controller.RecordSensorFailure |
