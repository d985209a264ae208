# DriveSafe driver-state monitor in Dafny

This project models the driver-state monitor of DriveSafe's `EyeTrackingFragment`. For every
camera frame the fragment receives the mean eye-openness, the two head angles and a yawn flag.
It turns them into a driver status: ATTENTIVE, YAWNING!, DISTRACTED!, WAKE UP! or PULL OVER!.
Around that status it runs:

- an alarm sound and a flashing red overlay;
- per-session counters of blinks, yawns, distractions, warnings and critical events, each
  counted once per episode by a latch;
- a rolling per-minute blink rate;
- one emergency SMS, 10 seconds after the first closed frame, unless a frame reaches the eye
  check with the eyes open in between.

A start/stop button opens and closes a drive session in the session store. Tearing the view
down ends a session that is still running.

## Layout

- `wrappers.dfy`: `Option`.
- `frame_metrics.dfy` (module `FrameMetrics`): `analyzeImage`'s derivation of the frame metrics
  from the first detected face. A missing eye probability counts as open. The yawn test
  compares the gap from the nose base down to the bottom lip with 0.35 of the face box height.
- `sos.dfy` (module `Sos`): `sendEmergencySOS` as a function from what it finds outside the
  monitor to one of three outcomes: no number saved, a message handed to the SMS service, or
  a caught failure. It takes the saved number, the location permission, the GPS and network
  fixes, and whether everything after the number check (the location lookup and the send)
  completes without throwing.
- `driver_state.dfy` (module `DriverState`): the monitor's fields as one value, `Monitor`.
  - The value also holds what the outside world sees: the status label, the alarm player, the
    overlay, the SOS attempts and the session-store calls in order.
  - `Step` is one call of `updateDriverState`. It is built from one small function per group
    of assignments in the Java method.
  - `Start`, `Stop`, `Destroy` and `Click` are the lifecycle. `Inv` is the invariant every
    reachable state keeps.
- `step_rules.dfy` (module `StepRules`): what one frame does, rule by rule.
  - `Step` is first given in each of its six cases.
  - The distraction, yawn, eye-closure, SOS, eyes-open and blink-window rules are then proved
    from those cases.
  - So is the latch discipline: a counter grows exactly when its latch rises.
- `lifecycle.dfy` (module `Lifecycle`): start, stop, teardown and the button keep the
  invariant, and no session is ended twice.
- `histories.dfy` (module `Histories`): whole histories of frames, button presses and
  teardowns.
  - The invariant holds over every history.
  - After teardown every opened session has been ended exactly once.
  - A condition held over many frames is counted once, and within one eye-closure episode the
    warning, the critical event and the SOS are each counted once, whatever else the frames do.
  - Over a whole session, each total written to the store is the number of frames that raised
    its latch.
  - One worked drive is traced frame by frame.
- `eye_tracking.dfy` (module `EyeTracking`): class `DriverMonitor`, holding the fragment's
  fields and methods.
  - `UpdateDriverState`, `AnalyzeImage`, `StartMonitoring`, `StopMonitoring`, `OnDestroyView`
    and `OnActionClick` are proved to move the object's state exactly as `Step`, `Analyze`,
    `Start`, `Stop`, `Destroy` and `Click` do, and to keep `Inv`.
  - Each helper method they call is proved to move the state exactly as the function for its
    block does, or as the field updates it lists.
  - `updateDriverState` is split into one method per block (distraction, yawn, eyes closed,
    eyes open, blink window) and one per `if (!latch) { count++; latch = true; }`. It calls
    them in the Java order.
  - `startMonitoring` and `stopMonitoring` are split the same way into their reset, store and
    display steps.

Time is a parameter of every operation; it stands for `System.currentTimeMillis()`. A ghost
`clock` holds the latest time the monitor was given; frames need a positive time that is no
earlier than it. Other inputs are also parameters:

- the permission checks;
- whether `MediaPlayer.create` returned a player;
- the id the session store returns;
- what the SOS attempt finds.

## Model

| member | source | states |
|---|---|---|
| FrameMetrics.EyeAverage | app/src/main/java/com/example/drivesafe/EyeTrackingFragment.java:261-263 | the mean lies between the two readings, a missing reading counting as 1.0; two missing readings give 1.0; two probabilities give a probability |
| FrameMetrics.MissingReadsAsOpen | app/src/main/java/com/example/drivesafe/EyeTrackingFragment.java:261-262 | a missing eye reading never makes the frame look more closed than any real reading of that eye would |
| FrameMetrics.IsYawning | app/src/main/java/com/example/drivesafe/EyeTrackingFragment.java:268-274 | a yawn needs both landmarks, and the mouth below the nose when the box height is not negative; with both landmarks, a mouth below the nose and a box height of zero or less, it is a yawn |
| FrameMetrics.YawnMonotone | app/src/main/java/com/example/drivesafe/EyeTrackingFragment.java:270-271 | a wider mouth gap or a shorter face box never ends a yawn |
| FrameMetrics.FrameOf | app/src/main/java/com/example/drivesafe/EyeTrackingFragment.java:259-276 | the head angles are passed through unchanged; the eye value is a probability when the detector's readings are; a yawn implies both landmarks were found |
| FrameMetrics.FirstFaceFrame | app/src/main/java/com/example/drivesafe/EyeTrackingFragment.java:258-259 | no metrics exactly when no face was found; otherwise the metrics of the first face |
| Sos.LastKnownLocation | app/src/main/java/com/example/drivesafe/EyeTrackingFragment.java:408-416 | no location without the fine-location permission; otherwise the GPS fix when there is one, else the network fix |
| Sos.MapsLink | app/src/main/java/com/example/drivesafe/EyeTrackingFragment.java:418-421 | "Location unavailable" exactly when no fix is known; otherwise the maps link built from latitude and longitude |
| Sos.SendEmergencySOS | app/src/main/java/com/example/drivesafe/EyeTrackingFragment.java:396-446 | no number is reported exactly when none is saved; a message is sent exactly when a number is saved and neither the location lookup nor the send throws, to that number, starting with the emergency text and naming the location as unavailable when there is none; any other case is a caught failure, never an exception |
| DriverState.Initial | app/src/main/java/com/example/drivesafe/EyeTrackingFragment.java:55-78 | the fields as declared satisfy the invariant: not monitoring, no session id, OFFLINE, no alarm, nothing sent, nothing stored |
| DriverState.Analyze | app/src/main/java/com/example/drivesafe/EyeTrackingFragment.java:244-285 | frames are dropped while not monitoring or when no face is found; otherwise the first face's metrics drive exactly one `Step` |
| DriverState.DurationSec | app/src/main/java/com/example/drivesafe/EyeTrackingFragment.java:200 | the whole seconds elapsed, truncated toward zero as Java's long division does, for both signs of the elapsed time |
| DriverState.PairedEnd | app/src/main/java/com/example/drivesafe/EyeTrackingFragment.java:199-203 | ending the held session keeps the store calls paired, with no session held afterwards |
| DriverState.PairedStart | app/src/main/java/com/example/drivesafe/EyeTrackingFragment.java:180 | starting a session while none is held keeps the store calls paired, the new one held when its id is usable |
| DriverState.PairedCounts | app/src/main/java/com/example/drivesafe/EyeTrackingFragment.java:180-203 | paired store calls open as many sessions as they end, plus one if a session is still held |
| DriverState.PairedEnds | app/src/main/java/com/example/drivesafe/EyeTrackingFragment.java:199-203 | in paired store calls every end directly follows the start of the session it names, which had a usable id |
| DriverState.PairedStarts | app/src/main/java/com/example/drivesafe/EyeTrackingFragment.java:180-203 | in paired store calls every start with a usable id is directly followed by its end, unless it is the last call and its session is the one still held |
| DriverState.Start | app/src/main/java/com/example/drivesafe/EyeTrackingFragment.java:150-194 | without both permissions nothing changes; otherwise monitoring is on, every counter, latch and timer is cleared, the alarm is silent, the flash hidden, the player is the one just created (if any), the new id is stored and opened in the store, and the session and blink-window clocks start now; the label and SOS log are untouched |
| DriverState.Stop | app/src/main/java/com/example/drivesafe/EyeTrackingFragment.java:196-225 | monitoring off and no session id; a session with an id is ended in the store with its record, otherwise the store is untouched; OFFLINE shown, flash hidden, the player kept and paused; the eye-closure timer, the distraction record and every latch left as they were |
| DriverState.Destroy | app/src/main/java/com/example/drivesafe/EyeTrackingFragment.java:448-478 | only a session still being monitored is ended in the store; monitoring off and the player released |
| StepRules.StepDistracted | app/src/main/java/com/example/drivesafe/EyeTrackingFragment.java:290-306 | a frame due as DISTRACTED moves the state by exactly one update: label, alarm started, distraction latch and counter, nothing else |
| StepRules.StepYawning | app/src/main/java/com/example/drivesafe/EyeTrackingFragment.java:307-321 | a yawning frame past the distraction check moves the state by exactly the YAWNING update and the distraction timer |
| StepRules.StepCritical | app/src/main/java/com/example/drivesafe/EyeTrackingFragment.java:325-352 | a closed frame 10000 ms or more into the closure moves the state by exactly the PULL OVER update: flash, alarm, critical latch and counter, at most one SOS attempt, blink window |
| StepRules.StepWarning | app/src/main/java/com/example/drivesafe/EyeTrackingFragment.java:353-363 | a closed frame between 1000 and 10000 ms moves the state by exactly the WAKE UP update |
| StepRules.StepClosedQuiet | app/src/main/java/com/example/drivesafe/EyeTrackingFragment.java:325-329 | a closed frame under 1000 ms only marks the eyes closed, starts the timer and rolls the blink window, and keeps the invariant |
| StepRules.StepOpen | app/src/main/java/com/example/drivesafe/EyeTrackingFragment.java:364-393 | an open frame moves the state by exactly the ATTENTIVE update: blink counted when a closure ends, latches and timer cleared, flash hidden, alarm paused, blink window rolled |
| StepRules.StepPreservesInv | app/src/main/java/com/example/drivesafe/EyeTrackingFragment.java:287-394 | every frame keeps the invariant: eye timer running exactly while the eyes are marked closed, latches only during their episode, SOS latch equal to the critical latch, flash only at the critical level, alarm only with a player, the store calls paired with the session held |
| StepRules.StepKeepsSession | app/src/main/java/com/example/drivesafe/EyeTrackingFragment.java:287-394 | a frame never touches the store, the session id, the session start, the monitoring flag or the player's existence |
| StepRules.DistractionRule | app/src/main/java/com/example/drivesafe/EyeTrackingFragment.java:290-310 | first off-angle frame starts the dwell timer and counts nothing; within 2000 ms nothing changes; at 2000 ms or more DISTRACTED, alarm started, counted once per excursion, yawn, eye and blink-window state untouched; an in-range frame ends the excursion |
| StepRules.YawnRule | app/src/main/java/com/example/drivesafe/EyeTrackingFragment.java:312-323 | a yawning frame past the distraction check shows YAWNING and counts once per yawn, leaving alarm, flash, eyes and blink window alone; a non-yawning one clears the latch; a DISTRACTED frame keeps it |
| StepRules.EyeClosureRule | app/src/main/java/com/example/drivesafe/EyeTrackingFragment.java:325-363 | one closure timer, never restarted between levels; 10000 ms or more is PULL OVER with flash, alarm and one critical count; 1000 ms or more WAKE UP with alarm and one warning count; under 1000 ms nothing visible changes |
| StepRules.SosRule | app/src/main/java/com/example/drivesafe/EyeTrackingFragment.java:343-373 | an SOS attempt is logged exactly on the frame that raises the latch, only at PULL OVER, always at the critical level; only an open frame that reaches the eye check lowers the latch |
| StepRules.EyesOpenRule | app/src/main/java/com/example/drivesafe/EyeTrackingFragment.java:364-387 | an open frame shows ATTENTIVE, stops the timer, hides the flash, pauses the alarm, and counts one blink exactly when a closure ends, clearing every eye latch; otherwise the latches stay |
| StepRules.BlinkWindowRule | app/src/main/java/com/example/drivesafe/EyeTrackingFragment.java:389-393 | after 60000 ms the minute's count (this frame's blink included) is reported and restarted at now; before that it only grows by this frame's blink; frames that return early leave it alone |
| StepRules.StepLatchDiscipline | app/src/main/java/com/example/drivesafe/EyeTrackingFragment.java:290-373 | for every counted event, its counter grows by one exactly on the frame that raises its latch, and a latch falls only on a frame that breaks its condition |
| StepRules.ClosureLatchDiscipline | app/src/main/java/com/example/drivesafe/EyeTrackingFragment.java:325-373 | the same for the warning, critical and SOS latches |
| StepRules.BlinkCounting | app/src/main/java/com/example/drivesafe/EyeTrackingFragment.java:366-369 | the session blink total grows by one exactly when a frame ends a closure |
| Lifecycle.StartPreservesInv | app/src/main/java/com/example/drivesafe/EyeTrackingFragment.java:150-194 | starting keeps the invariant (the new start call pairs with nothing open) and, with a usable id, opens exactly one more session |
| Lifecycle.StopPreservesInv | app/src/main/java/com/example/drivesafe/EyeTrackingFragment.java:196-225 | stopping keeps the invariant (the end call pairs with the start just before it), leaves as many ends as usable starts, and the alarm silent |
| Lifecycle.DestroyPreservesInv | app/src/main/java/com/example/drivesafe/EyeTrackingFragment.java:448-478 | teardown keeps the invariant (the end call pairs with the start just before it) and leaves as many ends as usable starts |
| Lifecycle.ClickToggles | app/src/main/java/com/example/drivesafe/EyeTrackingFragment.java:120-123 | the button stops a running session and starts one when idle and permitted; idle without permissions it changes nothing |
| Lifecycle.FlushOnce | app/src/main/java/com/example/drivesafe/EyeTrackingFragment.java:199-204 | a second stop, or a teardown after a stop, writes nothing to the store |
| Lifecycle.DestroyFlushesLikeStop | app/src/main/java/com/example/drivesafe/EyeTrackingFragment.java:452-456 | while monitoring, teardown writes exactly what stopping would |
| Lifecycle.FlushedRecord | app/src/main/java/com/example/drivesafe/EyeTrackingFragment.java:199-203 | the ended record carries the session id, the five counters and the whole seconds since the start, rounded down |
| Histories.ApplyPreservesInv | app/src/main/java/com/example/drivesafe/EyeTrackingFragment.java:120-478 | any event (frame, button press, teardown) keeps the invariant and only appends to the store |
| Histories.ReplayPreservesInv | app/src/main/java/com/example/drivesafe/EyeTrackingFragment.java:150-285 | every state a history with non-decreasing times reaches satisfies the invariant, and the store is only appended to |
| Histories.NoSessionLost | app/src/main/java/com/example/drivesafe/EyeTrackingFragment.java:448-458 | after teardown, monitoring is off, the store holds as many ends as usable starts, every start with a usable id is followed by the end of that id as the very next call, and every end directly follows the start of the session it names: no session is lost or ended twice |
| Histories.SustainedCountedOnce | app/src/main/java/com/example/drivesafe/EyeTrackingFragment.java:290-373 | over a run of frames that keep a condition up, its counter grows by at most one, and not at all if it was already latched |
| Histories.EpisodeCountedOnce | app/src/main/java/com/example/drivesafe/EyeTrackingFragment.java:325-373 | over a run in which no frame reaches the eye check with the eyes open, the warning, the critical event and the SOS are each counted at most once, not at all if already latched, DISTRACTED and YAWNING frames included |
| Histories.SosOncePerEpisode | app/src/main/java/com/example/drivesafe/EyeTrackingFragment.java:348-351 | between two reopenings of the eyes at most one SOS attempt is made, and none if one already was |
| Histories.CountIsRaises | app/src/main/java/com/example/drivesafe/EyeTrackingFragment.java:299-362 | over any run, each latched counter grows by exactly the number of frames that raised its latch |
| Histories.BlinkTotalIsBlinks | app/src/main/java/com/example/drivesafe/EyeTrackingFragment.java:366-369 | over any run, the session blink total grows by exactly the number of frames that ended a closure |
| Histories.RunKeepsSession | app/src/main/java/com/example/drivesafe/EyeTrackingFragment.java:287-394 | a run of frames leaves the store, the session id and the session start as they were |
| Histories.RunTotalsFromZero | app/src/main/java/com/example/drivesafe/EyeTrackingFragment.java:157-162 | from zeroed counters, a run ends with each counter equal to the number of frames that raised it |
| Histories.SessionRecordCounts | app/src/main/java/com/example/drivesafe/EyeTrackingFragment.java:150-204 | start with a usable id, any frames, stop: the store gets exactly the start call and one end call whose record holds the id, the whole seconds between start and stop, and for each counter the number of frames that raised its latch (for blinks, that ended a closure) |
| Histories.DriveScenario | app/src/main/java/com/example/drivesafe/EyeTrackingFragment.java:325-363 | eyes shut from the start: nothing shown at 0 s, WAKE UP at 1 s, PULL OVER with one SOS attempt at 10 s |
| Histories.DriveScenarioEnds | app/src/main/java/com/example/drivesafe/EyeTrackingFragment.java:196-393 | the same drive: no second SOS, ATTENTIVE with the alarm paused on reopening, and a stop that records 12 s, one warning, one critical event and one blink |
| Histories.DistractionKeepsClosureTimer | app/src/main/java/com/example/drivesafe/EyeTrackingFragment.java:294-351 | a DISTRACTED frame with open eyes does not end the closure: the timer of the first closed frame still gives PULL OVER and one SOS attempt 10 s later |
| EyeTracking.DriverMonitor.constructor | app/src/main/java/com/example/drivesafe/EyeTrackingFragment.java:55-78 | the fields start as `Initial` and satisfy the invariant |
| EyeTracking.DriverMonitor.StartAlarm | app/src/main/java/com/example/drivesafe/EyeTrackingFragment.java:304 | starts the player only when there is one and it is not playing |
| EyeTracking.DriverMonitor.PauseAlarm | app/src/main/java/com/example/drivesafe/EyeTrackingFragment.java:386 | pauses the player only when there is one and it is playing |
| EyeTracking.DriverMonitor.CountDistractionOnce | app/src/main/java/com/example/drivesafe/EyeTrackingFragment.java:299-302 | the distraction counter grows only if the latch was down, and the latch is up afterwards |
| EyeTracking.DriverMonitor.CountYawnOnce | app/src/main/java/com/example/drivesafe/EyeTrackingFragment.java:313-316 | the same for the yawn latch and counter |
| EyeTracking.DriverMonitor.CountCriticalOnce | app/src/main/java/com/example/drivesafe/EyeTrackingFragment.java:343-346 | the same for the critical latch and counter |
| EyeTracking.DriverMonitor.SendSosOnce | app/src/main/java/com/example/drivesafe/EyeTrackingFragment.java:348-351 | one SOS attempt is logged only if the latch was down, and the latch is up afterwards whatever the outcome |
| EyeTracking.DriverMonitor.CountWarningOnce | app/src/main/java/com/example/drivesafe/EyeTrackingFragment.java:359-362 | the same for the warning latch and counter |
| EyeTracking.DriverMonitor.CheckDistraction | app/src/main/java/com/example/drivesafe/EyeTrackingFragment.java:290-310 | returns whether the frame ends as DISTRACTED; if so the state is the DISTRACTED update, otherwise only the distraction timer moved |
| EyeTracking.DriverMonitor.CheckYawn | app/src/main/java/com/example/drivesafe/EyeTrackingFragment.java:312-323 | returns the yawn flag; a yawn gives the YAWNING update, otherwise only the latch is cleared |
| EyeTracking.DriverMonitor.MarkEyesClosed | app/src/main/java/com/example/drivesafe/EyeTrackingFragment.java:326-327 | marks the eyes closed and starts the timer only if it is not running |
| EyeTracking.DriverMonitor.CloseEyes | app/src/main/java/com/example/drivesafe/EyeTrackingFragment.java:325-363 | a closed frame as the closure levels say |
| EyeTracking.DriverMonitor.EndClosure | app/src/main/java/com/example/drivesafe/EyeTrackingFragment.java:366-373 | a closure that ends counts one blink on both counters and clears the eye latches |
| EyeTracking.DriverMonitor.OpenEyes | app/src/main/java/com/example/drivesafe/EyeTrackingFragment.java:364-387 | an open frame as the ATTENTIVE rule says |
| EyeTracking.DriverMonitor.CheckEyes | app/src/main/java/com/example/drivesafe/EyeTrackingFragment.java:325-387 | the eye check as `EyeCheck` says |
| EyeTracking.DriverMonitor.RollBlinkWindow | app/src/main/java/com/example/drivesafe/EyeTrackingFragment.java:389-393 | after 60000 ms the count is reported and restarted, otherwise nothing changes |
| EyeTracking.DriverMonitor.UpdateDriverState | app/src/main/java/com/example/drivesafe/EyeTrackingFragment.java:287-394 | the object's new state is exactly `Step` of its old state, so every StepRules lemma holds of it, and the invariant is kept |
| EyeTracking.DriverMonitor.AnalyzeImage | app/src/main/java/com/example/drivesafe/EyeTrackingFragment.java:244-285 | the new state is exactly `Analyze` of the old one, and the invariant is kept |
| EyeTracking.DriverMonitor.StartMonitoring | app/src/main/java/com/example/drivesafe/EyeTrackingFragment.java:150-194 | the new state is exactly `Start` of the old one, and the invariant is kept |
| EyeTracking.DriverMonitor.ResetSession | app/src/main/java/com/example/drivesafe/EyeTrackingFragment.java:154-170 | the blink window, the session clock, every counter, latch and eye timer restarted |
| EyeTracking.DriverMonitor.ResetCounters | app/src/main/java/com/example/drivesafe/EyeTrackingFragment.java:155-162 | the blink window and session clock restarted at now and the five counters zeroed, nothing else changed |
| EyeTracking.DriverMonitor.ResetLatches | app/src/main/java/com/example/drivesafe/EyeTrackingFragment.java:163-170 | every latch and the eye timer cleared, nothing else changed |
| EyeTracking.DriverMonitor.OpenSession | app/src/main/java/com/example/drivesafe/EyeTrackingFragment.java:172-180 | the flash hidden, a fresh silent player, and the new id held and opened in the store |
| EyeTracking.DriverMonitor.FlushSession | app/src/main/java/com/example/drivesafe/EyeTrackingFragment.java:199-204 | the session's record appended to the store and the id forgotten |
| EyeTracking.DriverMonitor.StopMonitoring | app/src/main/java/com/example/drivesafe/EyeTrackingFragment.java:196-225 | the new state is exactly `Stop` of the old one, and the invariant is kept |
| EyeTracking.DriverMonitor.GoOffline | app/src/main/java/com/example/drivesafe/EyeTrackingFragment.java:210-221 | OFFLINE shown, the flash hidden, the player paused |
| EyeTracking.DriverMonitor.OnDestroyView | app/src/main/java/com/example/drivesafe/EyeTrackingFragment.java:448-478 | the new state is exactly `Destroy` of the old one, and the invariant is kept |
| EyeTracking.DriverMonitor.OnActionClick | app/src/main/java/com/example/drivesafe/EyeTrackingFragment.java:120-123 | the new state is exactly `Click` of the old one: stop when running, start otherwise |

## Behaviour that follows the code

Where the fragment's code and its documented design differ, the model follows the code:

- The blink-rate window (lines 389-393) is only looked at by frames that reach the eye check.
  DISTRACTED and YAWNING frames return before it.
- `distractionStartTime` is never reset to 0 (line 308 only clears `isDistracted`), so the
  invariant only says it lies in the past and is positive while distracted.
- A closed frame under 1000 ms leaves the label, the alarm and the counters as they were. It
  does not show ATTENTIVE.
- `startMonitoring` has no "already monitoring" check. Its only caller, the button at line
  121, calls it only when monitoring is off, so `StartMonitoring` and
  `Lifecycle.StartPreservesInv` require that. The `Start` function itself has no requires.
- `startMonitoring` leaves the status label as it was (OFFLINE after a stop).
- `stopMonitoring` pauses the alarm only when there is a player and it is playing.
- `stopMonitoring` leaves the eye-closure timer, `eyesWereClosed`, the distraction record and
  every latch as they were; only `startMonitoring` clears them. `Stop` states this.
- DISTRACTED and YAWNING frames return before the eye check (lines 305 and 320), so they never
  end a closure, even with the eyes open. The closure timer started by the first closed frame
  keeps running through them, and they count toward the 1-second and 10-second thresholds.
  An episode is therefore not a run of frames in which the eyes are continuously shut.
  `Histories.DistractionKeepsClosureTimer` traces such a drive to PULL OVER and an SOS.
- `onDestroyView` releases the player. It neither shows OFFLINE nor hides the overlay: it
  only clears its animation.

## Left out

- Camera, ML Kit face detection and image buffers: faces arrive as values, and frames are
  processed in the order given. The gap between `analyzeImage` on the camera executor and
  `updateDriverState` on the UI thread, and the `isAdded()` check at line 253, are not
  modelled. A frame is applied at once or not at all. Since `updateDriverState` never checks
  `isMonitoring`, a frame whose analysis began before a stop can still run after it in the
  app: it can start the alarm again with nothing to pause it until the next session, replace
  OFFLINE on the label, or send an SOS after the session was saved. The model does not
  capture this.
- Float semantics: `float` readings and angles are `real`. The `0.35f` yawn ratio and the
  `/ 2.0f` mean are exact.
- Integer overflow: `long` times and `int` counters are unbounded `int`/`nat`. The `(int)`
  cast of the duration is not modelled, because a session would need to last about 68 years
  for it to matter.
- `MediaPlayer`: only whether a player exists and whether it was started and not paused
  since. Sound choice, volume and `setupMediaPlayer`'s release of an earlier player are not
  modelled.
- `alarmPlaying` means "started and not paused since". The player is never set to loop, so a
  clip that ends on its own stops playing, and the next alarm frame starts it again. The model
  keeps `alarmPlaying` true until a pause, so the clip ending by itself is not modelled.
- `sendEmergencySOS`: the SMS transport, the toasts and the alert dialog are not modelled, and
  coordinates are strings as the platform prints them. The monitor logs what each attempt
  found; the outcome is `SendEmergencySOS` of that.
- The `DatabaseHelper` session store is the sequence of calls the monitor makes. The ids it
  returns are parameters, and a negative id means the store failed.
- UI: colours, backgrounds, the pulse animation, button text, the EAR and blink-rate text
  views and toasts. Only the status label, the overlay's visibility and the last reported
  blink rate are kept.
- Permissions are a boolean parameter of `Start`, and the permission request is not
  modelled. Camera binding and unbinding, and the executor shutdown, are not modelled.
- `MainActivity.java` and `SettingsFragment.java` are not part of this model. The emergency
  number they save reaches the monitor as part of `SosEnv`.
