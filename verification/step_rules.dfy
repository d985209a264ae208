/**
 * What one call of updateDriverState does, rule by rule, stated about `Step`.
 *
 * The first section gives `Step` in each of its six cases (DISTRACTED, YAWNING, the three
 * closed-eye levels, eyes open) as one update of the previous state; every rule after it
 * is proved from those by the same case split.
 */
module StepRules {
  import opened Wrappers
  import opened FrameMetrics
  import opened Sos
  import opened DriverState

  // ---------------------------------------------------------------------------
  // Step, case by case

  /** A frame past the distraction check: the clock and the distraction timer move on. */
  function Tracked(m: Monitor, f: Frame, now: int): Monitor {
    m.(clock := now, distraction := TrackDistraction(m.distraction, f, now))
  }

  /** What a latched counter grows by. */
  function Bump(fired: bool): nat {
    if fired then 0 else 1
  }

  lemma StepDistracted(m: Monitor, f: Frame, now: int, env: SosEnv)
    requires DistractionDue(m, f, now)
    ensures Step(m, f, now, env) ==
      m.(clock := now, status := Distracted, alarm := Started(m.alarm),
         distraction := m.distraction.(distractionFired := true),
         totals := m.totals.(sessionTotalDistractions :=
                               m.totals.sessionTotalDistractions + Bump(m.distraction.distractionFired)))
    ensures Inv(m) && 0 < now && m.clock <= now ==> Inv(Step(m, f, now, env))
  {
  }

  lemma StepYawning(m: Monitor, f: Frame, now: int, env: SosEnv)
    requires !DistractionDue(m, f, now) && f.isYawning
    ensures Step(m, f, now, env) ==
      Tracked(m, f, now).(status := Yawning, yawnFired := true,
                          totals := m.totals.(sessionTotalYawns := m.totals.sessionTotalYawns + Bump(m.yawnFired)))
    ensures Inv(m) && 0 < now && m.clock <= now ==> Inv(Step(m, f, now, env))
  {
  }

  lemma StepCritical(m: Monitor, f: Frame, now: int, env: SosEnv)
    requires ReachesEyeCheck(m, f, now) && EyesShut(f) && now - ClosedSince(m.eyes, now) >= CriticalDwellMs
    ensures Step(m, f, now, env) ==
      Tracked(m, f, now).(
        yawnFired := false, status := PullOver, flashVisible := true, alarm := Started(m.alarm),
        eyes := MarkClosed(m.eyes, now).(criticalFired := true, sosSent := true),
        totals := m.totals.(sessionCriticalCount := m.totals.sessionCriticalCount + Bump(m.eyes.criticalFired)),
        sosLog := m.sosLog + (if m.eyes.sosSent then [] else [env]),
        rate := RollWindow(m.rate, now))
    ensures Inv(m) && 0 < now && m.clock <= now ==> Inv(Step(m, f, now, env))
  {
  }

  lemma StepWarning(m: Monitor, f: Frame, now: int, env: SosEnv)
    requires ReachesEyeCheck(m, f, now) && EyesShut(f)
    requires WarningDwellMs <= now - ClosedSince(m.eyes, now) < CriticalDwellMs
    ensures Step(m, f, now, env) ==
      Tracked(m, f, now).(
        yawnFired := false, status := WakeUp, alarm := Started(m.alarm),
        eyes := MarkClosed(m.eyes, now).(warningFired := true),
        totals := m.totals.(sessionWarningCount := m.totals.sessionWarningCount + Bump(m.eyes.warningFired)),
        rate := RollWindow(m.rate, now))
    ensures Inv(m) && 0 < now && m.clock <= now ==> Inv(Step(m, f, now, env))
  {
  }

  lemma StepClosedQuiet(m: Monitor, f: Frame, now: int, env: SosEnv)
    requires ReachesEyeCheck(m, f, now) && EyesShut(f) && now - ClosedSince(m.eyes, now) < WarningDwellMs
    ensures Step(m, f, now, env) ==
      Tracked(m, f, now).(yawnFired := false, eyes := MarkClosed(m.eyes, now), rate := RollWindow(m.rate, now))
    ensures Inv(m) && 0 < now && m.clock <= now ==> Inv(Step(m, f, now, env))
  {
  }

  lemma StepOpen(m: Monitor, f: Frame, now: int, env: SosEnv)
    requires ReachesEyeCheck(m, f, now) && !EyesShut(f)
    ensures Step(m, f, now, env) ==
      var closed := m.eyes.eyesWereClosed;
      var blink := if closed then 1 else 0;
      Tracked(m, f, now).(
        yawnFired := false, status := Attentive, flashVisible := false, alarm := Paused(m.alarm),
        eyes := if closed then EyeEpisode(false, 0, false, false, false) else m.eyes.(eyeClosedStartTime := 0),
        totals := m.totals.(sessionTotalBlinks := m.totals.sessionTotalBlinks + blink),
        rate := RollWindow(m.rate.(blinkCount := m.rate.blinkCount + blink), now))
    ensures Inv(m) && 0 < now && m.clock <= now ==> Inv(Step(m, f, now, env))
  {
  }

  // ---------------------------------------------------------------------------
  // The rules

  /** The invariant survives every frame whose timestamp is positive and not earlier than the last. */
  lemma StepPreservesInv(m: Monitor, f: Frame, now: int, env: SosEnv)
    requires Inv(m) && 0 < now && m.clock <= now
    ensures Inv(Step(m, f, now, env))
  {
    if DistractionDue(m, f, now) {
      StepDistracted(m, f, now, env);
    } else if f.isYawning {
      StepYawning(m, f, now, env);
    } else if !EyesShut(f) {
      StepOpen(m, f, now, env);
    } else if now - ClosedSince(m.eyes, now) >= CriticalDwellMs {
      StepCritical(m, f, now, env);
    } else if now - ClosedSince(m.eyes, now) >= WarningDwellMs {
      StepWarning(m, f, now, env);
    } else {
      StepClosedQuiet(m, f, now, env);
    }
  }

  /** A frame never touches the session: the store, the session id, the monitoring flag, the player. */
  lemma StepKeepsSession(m: Monitor, f: Frame, now: int, env: SosEnv)
    ensures var r := Step(m, f, now, env);
      r.store == m.store && r.sessionId == m.sessionId && r.isMonitoring == m.isMonitoring
      && r.sessionStartTime == m.sessionStartTime && r.alarm.hasPlayer == m.alarm.hasPlayer && r.clock == now
  {
    if DistractionDue(m, f, now) {
      StepDistracted(m, f, now, env);
    } else if f.isYawning {
      StepYawning(m, f, now, env);
    } else if !EyesShut(f) {
      StepOpen(m, f, now, env);
    } else if now - ClosedSince(m.eyes, now) >= CriticalDwellMs {
      StepCritical(m, f, now, env);
    } else if now - ClosedSince(m.eyes, now) >= WarningDwellMs {
      StepWarning(m, f, now, env);
    } else {
      StepClosedQuiet(m, f, now, env);
    }
  }

  /**
   * Distraction: a first off-angle frame only starts the dwell timer and falls through;
   * an off-angle frame 2000 ms or more after that sets DISTRACTED, starts the alarm, counts
   * once per excursion and returns before the yawn and eye checks; an in-range frame ends
   * the excursion.
   */
  lemma DistractionRule(m: Monitor, f: Frame, now: int, env: SosEnv)
    ensures var r := Step(m, f, now, env);
      OffAngle(f) && !m.distraction.isDistracted ==>
        r.distraction == m.distraction.(isDistracted := true, distractionStartTime := now)
        && r.totals.sessionTotalDistractions == m.totals.sessionTotalDistractions
    ensures var r := Step(m, f, now, env);
      OffAngle(f) && m.distraction.isDistracted && !DistractionDue(m, f, now) ==>
        r.distraction == m.distraction && r.totals.sessionTotalDistractions == m.totals.sessionTotalDistractions
    ensures var r := Step(m, f, now, env);
      DistractionDue(m, f, now) ==>
        r.status == Distracted && r.distraction == m.distraction.(distractionFired := true)
        && r.totals.sessionTotalDistractions == m.totals.sessionTotalDistractions + (if m.distraction.distractionFired then 0 else 1)
        && r.alarm.alarmPlaying == (m.alarm.alarmPlaying || m.alarm.hasPlayer)
        && r.yawnFired == m.yawnFired && r.eyes == m.eyes && r.rate == m.rate && r.sosLog == m.sosLog
        && r.totals.(sessionTotalDistractions := 0) == m.totals.(sessionTotalDistractions := 0)
    ensures var r := Step(m, f, now, env);
      !OffAngle(f) ==>
        !r.distraction.isDistracted && !r.distraction.distractionFired
        && r.totals.sessionTotalDistractions == m.totals.sessionTotalDistractions
  {
    if DistractionDue(m, f, now) {
      StepDistracted(m, f, now, env);
    } else if f.isYawning {
      StepYawning(m, f, now, env);
    } else if !EyesShut(f) {
      StepOpen(m, f, now, env);
    } else if now - ClosedSince(m.eyes, now) >= CriticalDwellMs {
      StepCritical(m, f, now, env);
    } else if now - ClosedSince(m.eyes, now) >= WarningDwellMs {
      StepWarning(m, f, now, env);
    } else {
      StepClosedQuiet(m, f, now, env);
    }
  }

  /**
   * Yawn: a yawning frame that gets past the distraction check sets YAWNING, counts once per
   * yawn, leaves the alarm, the flash, every eye field and the blink window alone; a
   * non-yawning one clears the latch; a DISTRACTED frame leaves the latch as it was.
   */
  lemma YawnRule(m: Monitor, f: Frame, now: int, env: SosEnv)
    ensures var r := Step(m, f, now, env);
      !DistractionDue(m, f, now) && f.isYawning ==>
        r.status == Yawning && r.yawnFired
        && r.totals.sessionTotalYawns == m.totals.sessionTotalYawns + (if m.yawnFired then 0 else 1)
        && r.alarm == m.alarm && r.flashVisible == m.flashVisible
        && r.eyes == m.eyes && r.rate == m.rate && r.sosLog == m.sosLog
        && r.totals.(sessionTotalYawns := 0) == m.totals.(sessionTotalYawns := 0)
    ensures var r := Step(m, f, now, env);
      !DistractionDue(m, f, now) && !f.isYawning ==>
        !r.yawnFired && r.totals.sessionTotalYawns == m.totals.sessionTotalYawns
    ensures var r := Step(m, f, now, env);
      DistractionDue(m, f, now) ==> r.yawnFired == m.yawnFired && r.totals.sessionTotalYawns == m.totals.sessionTotalYawns
  {
    if DistractionDue(m, f, now) {
      StepDistracted(m, f, now, env);
    } else if f.isYawning {
      StepYawning(m, f, now, env);
    } else if !EyesShut(f) {
      StepOpen(m, f, now, env);
    } else if now - ClosedSince(m.eyes, now) >= CriticalDwellMs {
      StepCritical(m, f, now, env);
    } else if now - ClosedSince(m.eyes, now) >= WarningDwellMs {
      StepWarning(m, f, now, env);
    } else {
      StepClosedQuiet(m, f, now, env);
    }
  }

  /**
   * Eye closure: one timer, started on the first closed frame and never restarted between the
   * levels; 10000 ms or more is PULL OVER with the flash, 1000 ms or more WAKE UP, each counted
   * once per closure and starting the alarm; under 1000 ms the label, the alarm and the
   * counters stay as they were.
   */
  lemma EyeClosureRule(m: Monitor, f: Frame, now: int, env: SosEnv)
    requires ReachesEyeCheck(m, f, now) && EyesShut(f)
    ensures var r := Step(m, f, now, env);
      r.eyes.eyesWereClosed && r.eyes.eyeClosedStartTime == ClosedSince(m.eyes, now)
      && r.totals.sessionTotalBlinks == m.totals.sessionTotalBlinks
    ensures var r := Step(m, f, now, env); var closed := now - ClosedSince(m.eyes, now);
      closed >= CriticalDwellMs ==>
        r.status == PullOver && r.flashVisible && r.alarm.alarmPlaying == (m.alarm.alarmPlaying || m.alarm.hasPlayer)
        && r.eyes.criticalFired
        && r.totals.sessionCriticalCount == m.totals.sessionCriticalCount + (if m.eyes.criticalFired then 0 else 1)
        && r.eyes.warningFired == m.eyes.warningFired && r.totals.sessionWarningCount == m.totals.sessionWarningCount
    ensures var r := Step(m, f, now, env); var closed := now - ClosedSince(m.eyes, now);
      WarningDwellMs <= closed < CriticalDwellMs ==>
        r.status == WakeUp && r.alarm.alarmPlaying == (m.alarm.alarmPlaying || m.alarm.hasPlayer) && r.eyes.warningFired
        && r.totals.sessionWarningCount == m.totals.sessionWarningCount + (if m.eyes.warningFired then 0 else 1)
        && r.eyes.criticalFired == m.eyes.criticalFired && r.totals.sessionCriticalCount == m.totals.sessionCriticalCount
        && r.eyes.sosSent == m.eyes.sosSent && r.sosLog == m.sosLog && r.flashVisible == m.flashVisible
    ensures var r := Step(m, f, now, env); var closed := now - ClosedSince(m.eyes, now);
      closed < WarningDwellMs ==>
        r.status == m.status && r.alarm == m.alarm && r.flashVisible == m.flashVisible
        && r.eyes.warningFired == m.eyes.warningFired && r.eyes.criticalFired == m.eyes.criticalFired
        && r.eyes.sosSent == m.eyes.sosSent && r.totals == m.totals && r.sosLog == m.sosLog
  {
    if now - ClosedSince(m.eyes, now) >= CriticalDwellMs {
      StepCritical(m, f, now, env);
    } else if now - ClosedSince(m.eyes, now) >= WarningDwellMs {
      StepWarning(m, f, now, env);
    } else {
      StepClosedQuiet(m, f, now, env);
    }
  }

  /**
   * SOS: an attempt is logged exactly on the frame that raises `sosSent`, which happens only
   * at the critical level and always does there; the latch is raised whatever the attempt's
   * outcome, and only an eyes-open frame that reaches the eye check lowers it.
   */
  lemma SosRule(m: Monitor, f: Frame, now: int, env: SosEnv)
    ensures var r := Step(m, f, now, env);
      r.sosLog == m.sosLog + (if !m.eyes.sosSent && r.eyes.sosSent then [env] else [])
    ensures var r := Step(m, f, now, env);
      !m.eyes.sosSent && r.eyes.sosSent ==>
        r.status == PullOver && ReachesEyeCheck(m, f, now) && EyesShut(f)
        && now - ClosedSince(m.eyes, now) >= CriticalDwellMs
    ensures var r := Step(m, f, now, env);
      ReachesEyeCheck(m, f, now) && EyesShut(f) && now - ClosedSince(m.eyes, now) >= CriticalDwellMs ==> r.eyes.sosSent
    ensures var r := Step(m, f, now, env);
      m.eyes.sosSent && !r.eyes.sosSent ==> ReachesEyeCheck(m, f, now) && !EyesShut(f)
  {
    if DistractionDue(m, f, now) {
      StepDistracted(m, f, now, env);
    } else if f.isYawning {
      StepYawning(m, f, now, env);
    } else if !EyesShut(f) {
      StepOpen(m, f, now, env);
    } else if now - ClosedSince(m.eyes, now) >= CriticalDwellMs {
      StepCritical(m, f, now, env);
    } else if now - ClosedSince(m.eyes, now) >= WarningDwellMs {
      StepWarning(m, f, now, env);
    } else {
      StepClosedQuiet(m, f, now, env);
    }
  }

  /**
   * Eyes open: the end of a closure is one blink on both counters and clears every eye-episode
   * latch; any open frame stops the timer, shows ATTENTIVE, hides the flash and pauses the alarm.
   */
  lemma EyesOpenRule(m: Monitor, f: Frame, now: int, env: SosEnv)
    requires ReachesEyeCheck(m, f, now) && !EyesShut(f)
    ensures var r := Step(m, f, now, env);
      r.eyes.eyeClosedStartTime == 0 && !r.eyes.eyesWereClosed && r.status == Attentive
      && !r.flashVisible && r.sosLog == m.sosLog && r.alarm == Paused(m.alarm)
    ensures Inv(m) ==> !Step(m, f, now, env).alarm.alarmPlaying
    ensures var r := Step(m, f, now, env);
      r.totals == m.totals.(sessionTotalBlinks := m.totals.sessionTotalBlinks + (if m.eyes.eyesWereClosed then 1 else 0))
    ensures var r := Step(m, f, now, env);
      m.eyes.eyesWereClosed ==> !r.eyes.warningFired && !r.eyes.criticalFired && !r.eyes.sosSent
    ensures var r := Step(m, f, now, env);
      !m.eyes.eyesWereClosed ==>
        r.eyes.warningFired == m.eyes.warningFired && r.eyes.criticalFired == m.eyes.criticalFired
        && r.eyes.sosSent == m.eyes.sosSent
  {
    StepOpen(m, f, now, env);
  }

  /** The frame gets to the eye check with the eyes open: the only frame that ends an eye-closure episode. */
  predicate Reopens(m: Monitor, f: Frame, now: int) {
    ReachesEyeCheck(m, f, now) && !EyesShut(f)
  }

  /** Whether this frame completes a blink (it reopens eyes that were closed). */
  predicate CompletesBlink(m: Monitor, f: Frame, now: int) {
    ReachesEyeCheck(m, f, now) && !EyesShut(f) && m.eyes.eyesWereClosed
  }

  /**
   * Blink-rate window: only frames that reach the eye check look at it; once 60000 ms have
   * passed the minute's count (this frame's blink included) is reported and restarted; the
   * session blink total is never affected.
   */
  lemma BlinkWindowRule(m: Monitor, f: Frame, now: int, env: SosEnv)
    ensures var r := Step(m, f, now, env); var blink := if CompletesBlink(m, f, now) then 1 else 0;
      ReachesEyeCheck(m, f, now) && now - m.rate.minuteStartTime >= BlinkWindowMs ==>
        r.rate == BlinkRate(0, now, Some(m.rate.blinkCount + blink))
        && r.totals.sessionTotalBlinks == m.totals.sessionTotalBlinks + blink
    ensures var r := Step(m, f, now, env); var blink := if CompletesBlink(m, f, now) then 1 else 0;
      ReachesEyeCheck(m, f, now) && now - m.rate.minuteStartTime < BlinkWindowMs ==>
        r.rate == m.rate.(blinkCount := m.rate.blinkCount + blink)
    ensures var r := Step(m, f, now, env);
      !ReachesEyeCheck(m, f, now) ==> r.rate == m.rate && r.totals.sessionTotalBlinks == m.totals.sessionTotalBlinks
  {
    if DistractionDue(m, f, now) {
      StepDistracted(m, f, now, env);
    } else if f.isYawning {
      StepYawning(m, f, now, env);
    } else if !EyesShut(f) {
      StepOpen(m, f, now, env);
    } else if now - ClosedSince(m.eyes, now) >= CriticalDwellMs {
      StepCritical(m, f, now, env);
    } else if now - ClosedSince(m.eyes, now) >= WarningDwellMs {
      StepWarning(m, f, now, env);
    } else {
      StepClosedQuiet(m, f, now, env);
    }
  }

  // ---------------------------------------------------------------------------
  // The counted events and their latches

  /** The four session counters that are debounced by a latch, and the SOS attempts. */
  datatype Category = Distractions | Yawns | Warnings | Criticals | SosAttempts

  function Count(m: Monitor, c: Category): nat {
    match c
    case Distractions => m.totals.sessionTotalDistractions
    case Yawns => m.totals.sessionTotalYawns
    case Warnings => m.totals.sessionWarningCount
    case Criticals => m.totals.sessionCriticalCount
    case SosAttempts => |m.sosLog|
  }

  predicate Latched(m: Monitor, c: Category) {
    match c
    case Distractions => m.distraction.distractionFired
    case Yawns => m.yawnFired
    case Warnings => m.eyes.warningFired
    case Criticals => m.eyes.criticalFired
    case SosAttempts => m.eyes.sosSent
  }

  /** The frame continues the condition behind `c`: a frame that cannot lower the latch. */
  predicate Persists(c: Category, f: Frame) {
    match c
    case Distractions => OffAngle(f)
    case Yawns => f.isYawning
    case Warnings | Criticals | SosAttempts => f.isYawning || EyesShut(f)
  }

  /**
   * Edge-triggered counting: a counter grows by one exactly on the frame that raises its
   * latch and is otherwise unchanged, and a latch is lowered only by a frame that breaks
   * its condition.
   */
  lemma StepLatchDiscipline(m: Monitor, f: Frame, now: int, env: SosEnv, c: Category)
    ensures var r := Step(m, f, now, env);
      Count(r, c) == Count(m, c) + (if !Latched(m, c) && Latched(r, c) then 1 else 0)
    ensures var r := Step(m, f, now, env);
      Latched(m, c) && !Latched(r, c) ==> !Persists(c, f)
  {
    match c
    case Distractions =>
      DistractionRule(m, f, now, env);
    case Yawns =>
      YawnRule(m, f, now, env);
    case Warnings | Criticals | SosAttempts =>
      ClosureLatchDiscipline(m, f, now, env, c);
  }

  /**
   * The same for the three latches of an eye-closure episode, which only the eye check moves:
   * such a latch falls only on a frame that reaches the eye check with the eyes open.
   */
  lemma ClosureLatchDiscipline(m: Monitor, f: Frame, now: int, env: SosEnv, c: Category)
    requires c.Warnings? || c.Criticals? || c.SosAttempts?
    ensures var r := Step(m, f, now, env);
      Count(r, c) == Count(m, c) + (if !Latched(m, c) && Latched(r, c) then 1 else 0)
    ensures var r := Step(m, f, now, env);
      Latched(m, c) && !Latched(r, c) ==> Reopens(m, f, now)
  {
    SosRule(m, f, now, env);
    DistractionRule(m, f, now, env);
    YawnRule(m, f, now, env);
    if ReachesEyeCheck(m, f, now) {
      if EyesShut(f) {
        EyeClosureRule(m, f, now, env);
      } else {
        EyesOpenRule(m, f, now, env);
      }
    }
  }

  /** The blink total grows by one exactly when a frame ends a closure. */
  lemma BlinkCounting(m: Monitor, f: Frame, now: int, env: SosEnv)
    ensures var r := Step(m, f, now, env);
      r.totals.sessionTotalBlinks == m.totals.sessionTotalBlinks + (if m.eyes.eyesWereClosed && !r.eyes.eyesWereClosed then 1 else 0)
  {
    if DistractionDue(m, f, now) {
      StepDistracted(m, f, now, env);
    } else if f.isYawning {
      StepYawning(m, f, now, env);
    } else if !EyesShut(f) {
      StepOpen(m, f, now, env);
    } else if now - ClosedSince(m.eyes, now) >= CriticalDwellMs {
      StepCritical(m, f, now, env);
    } else if now - ClosedSince(m.eyes, now) >= WarningDwellMs {
      StepWarning(m, f, now, env);
    } else {
      StepClosedQuiet(m, f, now, env);
    }
  }
}
