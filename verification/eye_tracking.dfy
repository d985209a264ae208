/**
 * EyeTrackingFragment's monitor as an object: the fields the fragment updates in place, and
 * its methods, each proved to move the object's state as `Step`, `Analyze`, `Start`, `Stop`
 * and `Destroy` say and to keep the invariant.
 *
 * updateDriverState is one method in the fragment; here each of its blocks (the distraction
 * check, the yawn check, the closed-eye and open-eye branches, the blink window) and each
 * `if (!latch) { count++; latch = true; }` inside them is a method of its own, proved against
 * the function of the same block, and updateDriverState calls them in the fragment's order.
 */
module EyeTracking {
  import opened Wrappers
  import opened FrameMetrics
  import opened Sos
  import opened DriverState
  import opened StepRules
  import opened Lifecycle

  class DriverMonitor {
    var isMonitoring: bool
    var sessionId: int
    var sessionStartTime: int
    var distraction: Distraction   // isDistracted, distractionStartTime, distractionFired
    var yawnFired: bool
    var eyes: EyeEpisode           // eyesWereClosed, eyeClosedStartTime, warningFired, criticalFired, sosSent
    var totals: Totals             // the five session counters
    var rate: BlinkRate            // blinkCount, minuteStartTime, and the last rate shown

    // What the views and the alarm player show, and the calls made to the outside.
    var status: Status
    var alarm: Alarm
    var flashVisible: bool
    ghost var sosLog: seq<SosEnv>    // the calls made to the SMS sender
    ghost var store: seq<StoreCall>  // the calls made to the session store
    ghost var clock: int

    ghost function State(): Monitor
      reads this
    {
      Monitor(isMonitoring, sessionId, sessionStartTime, distraction, yawnFired, eyes, totals, rate,
              status, alarm, flashVisible, sosLog, store, clock)
    }

    ghost predicate Valid()
      reads this
    {
      Inv(State())
    }

    constructor()
      ensures State() == Initial() && Valid()
    {
      isMonitoring := false;
      sessionId := -1;
      sessionStartTime := 0;
      distraction := Distraction(false, 0, false);
      yawnFired := false;
      eyes := EyeEpisode(false, 0, false, false, false);
      totals := Totals(0, 0, 0, 0, 0);
      rate := BlinkRate(0, 0, None);
      status := Offline;
      alarm := Alarm(false, false);
      flashVisible := false;
      sosLog := [];
      store := [];
      clock := 0;
    }

    // -------------------------------------------------------------------------
    // The player

    /** Starts the player when there is one and it is not already playing. */
    method StartAlarm()
      modifies this`alarm
      ensures State() == DriverState.StartAlarm(old(State()))
    {
      if alarm.hasPlayer && !alarm.alarmPlaying {
        alarm := alarm.(alarmPlaying := true);
      }
    }

    /** Pauses the player when there is one and it is playing. */
    method PauseAlarm()
      modifies this`alarm
      ensures State() == DriverState.PauseAlarm(old(State()))
    {
      if alarm.hasPlayer && alarm.alarmPlaying {
        alarm := alarm.(alarmPlaying := false);
      }
    }

    // -------------------------------------------------------------------------
    // The latched counters of updateDriverState

    method CountDistractionOnce()
      modifies this`distraction, this`totals
      ensures State() == CountDistraction(old(State()))
    {
      if !distraction.distractionFired {
        totals := totals.(sessionTotalDistractions := totals.sessionTotalDistractions + 1);
        distraction := distraction.(distractionFired := true);
      }
    }

    method CountYawnOnce()
      modifies this`yawnFired, this`totals
      ensures State() == CountYawn(old(State()))
    {
      if !yawnFired {
        totals := totals.(sessionTotalYawns := totals.sessionTotalYawns + 1);
        yawnFired := true;
      }
    }

    method CountCriticalOnce()
      modifies this`eyes, this`totals
      ensures State() == CountCritical(old(State()))
    {
      if !eyes.criticalFired {
        eyes := eyes.(criticalFired := true);
        totals := totals.(sessionCriticalCount := totals.sessionCriticalCount + 1);
      }
    }

    /** The SOS goes out once per closure; the latch is set whatever the attempt's outcome. */
    method SendSosOnce(env: SosEnv)
      modifies this`eyes, this`sosLog
      ensures State() == DriverState.SendSosOnce(old(State()), env)
    {
      if !eyes.sosSent {
        sosLog := sosLog + [env];
        eyes := eyes.(sosSent := true);
      }
    }

    method CountWarningOnce()
      modifies this`eyes, this`totals
      ensures State() == CountWarning(old(State()))
    {
      if !eyes.warningFired {
        eyes := eyes.(warningFired := true);
        totals := totals.(sessionWarningCount := totals.sessionWarningCount + 1);
      }
    }

    // -------------------------------------------------------------------------
    // The blocks of updateDriverState

    /**
     * The head-pose check. Returns true when the frame ends as DISTRACTED, in which case
     * updateDriverState returns before the yawn and eye checks.
     */
    method CheckDistraction(f: Frame, currentTime: int) returns (distracted: bool)
      modifies this`distraction, this`totals, this`status, this`alarm
      ensures distracted == DistractionDue(old(State()), f, currentTime)
      ensures distracted ==> State() == DistractedFrame(old(State()))
      ensures !distracted ==> State() == old(State()).(distraction := TrackDistraction(old(distraction), f, currentTime))
    {
      distracted := false;
      if f.headTurnY > DistractionYaw || f.headTurnY < -DistractionYaw || f.headTiltX < DistractionPitch {
        if !distraction.isDistracted {
          distraction := distraction.(distractionStartTime := currentTime, isDistracted := true);
        } else if currentTime - distraction.distractionStartTime >= DistractionDwellMs {
          status := Distracted;
          assert State() == Show(old(State()), Distracted);
          CountDistractionOnce();
          StartAlarm();
          distracted := true;
        }
      } else {
        distraction := distraction.(isDistracted := false, distractionFired := false);
      }
    }

    /** The yawn check. Returns true when the frame ends as YAWNING. */
    method CheckYawn(isYawning: bool) returns (yawning: bool)
      modifies this`yawnFired, this`totals, this`status
      ensures yawning == isYawning
      ensures isYawning ==> State() == YawningFrame(old(State()))
      ensures !isYawning ==> State() == old(State()).(yawnFired := false)
    {
      if isYawning {
        CountYawnOnce();
        status := Yawning;
        return true;
      }
      yawnFired := false;
      return false;
    }

    /** A closed frame starts the closure timer if it is not running. */
    method MarkEyesClosed(currentTime: int)
      modifies this`eyes
      ensures State() == old(State()).(eyes := MarkClosed(old(eyes), currentTime))
    {
      eyes := eyes.(eyesWereClosed := true);
      if eyes.eyeClosedStartTime == 0 {
        eyes := eyes.(eyeClosedStartTime := currentTime);
      }
    }

    /** Eyes closed: PULL OVER after 10 s, WAKE UP after 1 s, nothing shown before that. */
    method CloseEyes(currentTime: int, env: SosEnv)
      modifies this`eyes, this`totals, this`status, this`alarm, this`flashVisible, this`sosLog
      ensures State() == ClosedLevel(old(State()).(eyes := MarkClosed(old(eyes), currentTime)), currentTime, env)
    {
      MarkEyesClosed(currentTime);
      ghost var m := State();
      var closedDuration := currentTime - eyes.eyeClosedStartTime;
      if closedDuration >= CriticalDwellMs {
        status := PullOver;
        flashVisible := true;
        assert State() == Show(m, PullOver).(flashVisible := true);
        StartAlarm();
        CountCriticalOnce();
        SendSosOnce(env);
      } else if closedDuration >= WarningDwellMs {
        status := WakeUp;
        assert State() == Show(m, WakeUp);
        StartAlarm();
        CountWarningOnce();
      }
    }

    /** The end of a closure counts one blink and clears every eye-episode latch. */
    method EndClosure()
      modifies this`eyes, this`totals, this`rate
      ensures State() == DriverState.EndClosure(old(State()))
    {
      if eyes.eyesWereClosed {
        rate := rate.(blinkCount := rate.blinkCount + 1);
        totals := totals.(sessionTotalBlinks := totals.sessionTotalBlinks + 1);
        eyes := eyes.(eyesWereClosed := false, warningFired := false, criticalFired := false, sosSent := false);
      }
    }

    /** Eyes open: ATTENTIVE, the timer stopped, the flash hidden, the alarm paused. */
    method OpenEyes()
      modifies this`eyes, this`totals, this`rate, this`status, this`alarm, this`flashVisible
      ensures State() == OpenFrame(old(State()))
    {
      EndClosure();
      ghost var ended := State();
      eyes := eyes.(eyeClosedStartTime := 0);
      status := Attentive;
      flashVisible := false;
      assert State() == Show(ended, Attentive).(eyes := ended.eyes.(eyeClosedStartTime := 0), flashVisible := false);
      PauseAlarm();
    }

    method CheckEyes(f: Frame, currentTime: int, env: SosEnv)
      modifies this`eyes, this`totals, this`rate, this`status, this`alarm, this`flashVisible, this`sosLog
      ensures State() == EyeCheck(old(State()), f, currentTime, env)
    {
      if f.ear < EyeClosedThreshold {
        CloseEyes(currentTime, env);
      } else {
        OpenEyes();
      }
    }

    /** Once a minute has passed, the minute's blink count is shown and a new window opens. */
    method RollBlinkWindow(currentTime: int)
      modifies this`rate
      ensures State() == old(State()).(rate := RollWindow(old(rate), currentTime))
    {
      if currentTime - rate.minuteStartTime >= BlinkWindowMs {
        rate := BlinkRate(0, currentTime, Some(rate.blinkCount));
      }
    }

    /** updateDriverState: the distraction, yawn and eye rules in order, then the blink window. */
    method UpdateDriverState(ear: real, headTurnY: real, headTiltX: real, isYawning: bool, currentTime: int, env: SosEnv)
      requires Valid() && 0 < currentTime && clock <= currentTime
      modifies this
      ensures State() == Step(old(State()), Frame(ear, headTurnY, headTiltX, isYawning), currentTime, env)
      ensures Valid()
    {
      ghost var m := State();
      var f := Frame(ear, headTurnY, headTiltX, isYawning);
      StepPreservesInv(m, f, currentTime, env);
      clock := currentTime;
      assert State() == m.(clock := currentTime);
      var distracted := CheckDistraction(f, currentTime);
      if distracted {
        return;
      }
      var yawning := CheckYawn(isYawning);
      if yawning {
        return;
      }
      CheckEyes(f, currentTime, env);
      RollBlinkWindow(currentTime);
    }

    // -------------------------------------------------------------------------
    // Frames and the session lifecycle

    /** analyzeImage: only while monitoring, and only when a face was found, the first face drives a step. */
    method AnalyzeImage(faces: seq<Face>, currentTime: int, env: SosEnv)
      requires Valid() && 0 < currentTime && clock <= currentTime
      modifies this
      ensures State() == Analyze(old(State()), faces, currentTime, env)
      ensures Valid()
    {
      if !isMonitoring {
        return;
      }
      var frame := FirstFaceFrame(faces);
      if frame.Some? {
        var f := frame.value;
        UpdateDriverState(f.ear, f.headTurnY, f.headTiltX, f.isYawning, currentTime, env);
      }
    }

    /**
     * startMonitoring. The permission checks, the new player and the store's new session id
     * are its inputs; the only caller starts when monitoring is off.
     */
    method StartMonitoring(permissionsGranted: bool, playerCreated: bool, newId: int, currentTime: int)
      requires Valid() && !isMonitoring && clock <= currentTime
      modifies this
      ensures State() == Start(old(State()), permissionsGranted, playerCreated, newId, currentTime)
      ensures Valid()
    {
      ghost var m := State();
      if !permissionsGranted {
        StartPreservesInv(m, permissionsGranted, playerCreated, newId, currentTime);
        return;
      }
      isMonitoring := true;
      ResetSession(currentTime);
      OpenSession(playerCreated, newId, currentTime);
      assert State() == Start(m, permissionsGranted, playerCreated, newId, currentTime);
      StartPreservesInv(m, permissionsGranted, playerCreated, newId, currentTime);
    }

    /** A fresh player, the flash hidden, and the new session's id written to the store. */
    method OpenSession(playerCreated: bool, newId: int, currentTime: int)
      modifies this`flashVisible, this`alarm, this`sessionId, this`store, this`clock
      ensures State() == old(State()).(flashVisible := false, alarm := Alarm(playerCreated, false), sessionId := newId,
                                       store := old(store) + [StartSession(newId)], clock := currentTime)
    {
      flashVisible := false;
      alarm := Alarm(playerCreated, false);
      sessionId := newId;
      store := store + [StartSession(newId)];
      clock := currentTime;
    }

    /** The blink window, the session clock and every counter, latch and eye timer of a new session. */
    method ResetSession(currentTime: int)
      modifies this`rate, this`sessionStartTime, this`totals, this`eyes, this`yawnFired, this`distraction
      ensures State() == DriverState.ResetSession(old(State()), currentTime)
    {
      ResetCounters(currentTime);
      ResetLatches();
    }

    /** The blink window and the session clock restarted, the session counters zeroed. */
    method ResetCounters(currentTime: int)
      modifies this`rate, this`sessionStartTime, this`totals
      ensures State() == old(State()).(rate := old(rate).(blinkCount := 0, minuteStartTime := currentTime),
                                       sessionStartTime := currentTime, totals := Totals(0, 0, 0, 0, 0))
    {
      rate := rate.(minuteStartTime := currentTime, blinkCount := 0);
      sessionStartTime := currentTime;
      totals := Totals(0, 0, 0, 0, 0);
    }

    /** Every latch and the eye timer cleared. */
    method ResetLatches()
      modifies this`eyes, this`yawnFired, this`distraction
      ensures State() == old(State()).(eyes := EyeEpisode(false, 0, false, false, false), yawnFired := false,
                                       distraction := old(distraction).(isDistracted := false, distractionFired := false))
    {
      eyes := EyeEpisode(false, 0, false, false, false);
      yawnFired := false;
      distraction := distraction.(distractionFired := false, isDistracted := false);
    }

    /** Ends the open session in the store and forgets its id. */
    method FlushSession(currentTime: int)
      modifies this`store, this`sessionId
      ensures State() == Flush(old(State()), currentTime)
    {
      var durationSec := DurationSec(sessionStartTime, currentTime);
      store := store + [EndSession(SessionRecord(sessionId, durationSec, totals.sessionWarningCount, totals.sessionCriticalCount,
                                                 totals.sessionTotalBlinks, totals.sessionTotalYawns, totals.sessionTotalDistractions))];
      sessionId := -1;
    }

    /** stopMonitoring. */
    method StopMonitoring(currentTime: int)
      requires Valid() && clock <= currentTime
      modifies this
      ensures State() == Stop(old(State()), currentTime)
      ensures Valid()
    {
      ghost var m := State();
      isMonitoring := false;
      if sessionId >= 0 {
        FlushSession(currentTime);
      }
      GoOffline(currentTime);
      assert State() == Stop(m, currentTime);
      StopPreservesInv(m, currentTime);
    }

    /** OFFLINE shown, the flash hidden and the alarm paused. */
    method GoOffline(currentTime: int)
      modifies this`status, this`flashVisible, this`alarm, this`clock
      ensures State() == old(State()).(status := Offline, flashVisible := false, alarm := Paused(old(alarm)), clock := currentTime)
    {
      status := Offline;
      flashVisible := false;
      clock := currentTime;
      PauseAlarm();
    }

    /** onDestroyView: the player is stopped and released. */
    method OnDestroyView(currentTime: int)
      requires Valid() && clock <= currentTime
      modifies this
      ensures State() == Destroy(old(State()), currentTime)
      ensures Valid()
    {
      ghost var m := State();
      if isMonitoring && sessionId >= 0 {
        FlushSession(currentTime);
      }
      isMonitoring := false;
      if alarm.hasPlayer {
        alarm := Alarm(false, false);
      }
      clock := currentTime;
      assert State() == Destroy(m, currentTime);
      DestroyPreservesInv(m, currentTime);
    }

    /** The start/stop button. */
    method OnActionClick(permissionsGranted: bool, playerCreated: bool, newId: int, currentTime: int)
      requires Valid() && clock <= currentTime
      modifies this
      ensures State() == Click(old(State()), permissionsGranted, playerCreated, newId, currentTime)
      ensures Valid()
    {
      if !isMonitoring {
        StartMonitoring(permissionsGranted, playerCreated, newId, currentTime);
      } else {
        StopMonitoring(currentTime);
      }
    }
  }
}
