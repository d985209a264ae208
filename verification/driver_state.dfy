/**
 * The driver-state monitor of EyeTrackingFragment as a value: every field the fragment
 * keeps between frames, grouped by concern, plus what the monitor's collaborators observe
 * (the label shown, the alarm, the emergency flash, the SOS attempts and the session-store
 * calls). `Step`, `Start`, `Stop` and `Destroy` give the state after one call of
 * updateDriverState, startMonitoring, stopMonitoring and onDestroyView.
 */
module DriverState {
  import opened Wrappers
  import opened FrameMetrics
  import opened Sos

  const EyeClosedThreshold: real := 0.25
  const DistractionYaw: real := 25.0
  const DistractionPitch: real := -20.0
  const DistractionDwellMs: int := 2000
  const WarningDwellMs: int := 1000
  const CriticalDwellMs: int := 10000
  const BlinkWindowMs: int := 60000

  /** The status label: OFFLINE, ATTENTIVE, YAWNING!, DISTRACTED!, WAKE UP!, PULL OVER! */
  datatype Status = Offline | Attentive | Yawning | Distracted | WakeUp | PullOver

  /** The arguments of one endSession call, in the order the store receives them. */
  datatype SessionRecord = SessionRecord(
    sessionId: int, durationSec: int,
    warnings: nat, criticals: nat, blinks: nat, yawns: nat, distractions: nat)

  /** One call into the session store. */
  datatype StoreCall = StartSession(id: int) | EndSession(record: SessionRecord)

  /** The head-pose dwell timer and its latch. */
  datatype Distraction = Distraction(isDistracted: bool, distractionStartTime: int, distractionFired: bool)

  /** The closed-eye dwell timer and the latches of one eye-closure episode. */
  datatype EyeEpisode = EyeEpisode(
    eyesWereClosed: bool, eyeClosedStartTime: int,
    warningFired: bool, criticalFired: bool, sosSent: bool)

  /** The session counters that end up in the store. */
  datatype Totals = Totals(
    sessionTotalBlinks: nat, sessionTotalYawns: nat, sessionTotalDistractions: nat,
    sessionWarningCount: nat, sessionCriticalCount: nat)

  /** The rolling blink-rate window and the last per-minute count shown. */
  datatype BlinkRate = BlinkRate(blinkCount: nat, minuteStartTime: int, reportedBlinkRate: Option<nat>)

  /** The alarm player: it is missing before the first start and after the view is destroyed. */
  datatype Alarm = Alarm(hasPlayer: bool, alarmPlaying: bool)

  /** Starts the player when there is one and it is not already playing. */
  function Started(a: Alarm): Alarm {
    a.(alarmPlaying := a.alarmPlaying || a.hasPlayer)
  }

  /** Pauses the player when there is one and it is playing. */
  function Paused(a: Alarm): Alarm {
    a.(alarmPlaying := a.alarmPlaying && !a.hasPlayer)
  }

  datatype Monitor = Monitor(
    isMonitoring: bool,
    sessionId: int,
    sessionStartTime: int,
    distraction: Distraction,
    yawnFired: bool,
    eyes: EyeEpisode,
    totals: Totals,
    rate: BlinkRate,
    status: Status,
    alarm: Alarm,
    flashVisible: bool,            // the red emergency overlay
    sosLog: seq<SosEnv>,           // every SOS attempt, with what it found
    store: seq<StoreCall>,         // every session-store call, in order
    clock: int)                    // the latest timestamp the monitor was given

  // ---------------------------------------------------------------------------
  // Session-store accounting

  /** Number of sessions the store opened with a usable id. */
  function OpenedCount(log: seq<StoreCall>): nat {
    if log == [] then 0
    else
      var last := log[|log| - 1];
      OpenedCount(log[..|log| - 1]) + (if last.StartSession? && last.id >= 0 then 1 else 0)
  }

  /** Number of sessions the store was asked to end. */
  function EndedCount(log: seq<StoreCall>): nat {
    if log == [] then 0
    else EndedCount(log[..|log| - 1]) + (if log[|log| - 1].EndSession? then 1 else 0)
  }

  lemma CountsAppend(log: seq<StoreCall>, c: StoreCall)
    ensures OpenedCount(log + [c]) == OpenedCount(log) + (if c.StartSession? && c.id >= 0 then 1 else 0)
    ensures EndedCount(log + [c]) == EndedCount(log) + (if c.EndSession? then 1 else 0)
  {
    assert (log + [c])[..|log|] == log;
  }

  /**
   * The store calls pair up: each end names the session started by the call just before it,
   * which got a usable id; a start with a usable id is either ended by the next call or is the
   * last call, and then it is the session `open` still held. `open < 0` means none is held.
   */
  predicate Paired(log: seq<StoreCall>, open: int) {
    if log == [] then open < 0
    else
      var prefix := log[..|log| - 1];
      match log[|log| - 1]
      case StartSession(id) => (if id >= 0 then open == id else open < 0) && Paired(prefix, -1)
      case EndSession(record) =>
        && open < 0 && prefix != []
        && prefix[|prefix| - 1] == StartSession(record.sessionId) && record.sessionId >= 0
        && Paired(prefix[..|prefix| - 1], -1)
  }

  /** Which negative id marks "no session" does not matter. */
  lemma PairedNoneOpen(log: seq<StoreCall>, open: int)
    requires open < 0
    ensures Paired(log, open) == Paired(log, -1)
  {
  }

  /** Ending the held session keeps the calls paired, with none held afterwards. */
  lemma PairedEnd(log: seq<StoreCall>, open: int, record: SessionRecord)
    requires Paired(log, open) && open >= 0 && record.sessionId == open
    ensures Paired(log + [EndSession(record)], -1)
  {
    assert (log + [EndSession(record)])[..|log|] == log;
  }

  /** Starting a session while none is held keeps the calls paired, the new one held if its id is usable. */
  lemma PairedStart(log: seq<StoreCall>, open: int, id: int)
    requires Paired(log, open) && open < 0
    ensures Paired(log + [StartSession(id)], id)
  {
    PairedNoneOpen(log, open);
    assert (log + [StartSession(id)])[..|log|] == log;
  }

  /** Paired calls open as many sessions as they end, plus the one still held. */
  lemma {:induction false} PairedCounts(log: seq<StoreCall>, open: int)
    requires Paired(log, open)
    ensures OpenedCount(log) == EndedCount(log) + (if open >= 0 then 1 else 0)
  {
    if log != [] {
      var prefix := log[..|log| - 1];
      if log[|log| - 1].StartSession? {
        PairedCounts(prefix, -1);
      } else {
        var before := prefix[..|prefix| - 1];
        PairedCounts(before, -1);
        assert prefix == before + [prefix[|prefix| - 1]];
        CountsAppend(before, prefix[|prefix| - 1]);
      }
    }
  }

  /** Read position by position, every end directly follows the start of the session it ends. */
  lemma {:induction false} PairedEnds(log: seq<StoreCall>, open: int)
    requires Paired(log, open)
    ensures forall j :: 0 <= j < |log| && log[j].EndSession? ==>
      0 < j && log[j - 1] == StartSession(log[j].record.sessionId) && log[j].record.sessionId >= 0
  {
    if log != [] {
      var n := |log|;
      var prefix := log[..n - 1];
      if log[n - 1].StartSession? {
        PairedEnds(prefix, -1);
        forall j | 0 <= j < n && log[j].EndSession?
          ensures 0 < j && log[j - 1] == StartSession(log[j].record.sessionId) && log[j].record.sessionId >= 0
        {
          assert j < n - 1 && log[j] == prefix[j];
          if 0 < j {
            assert log[j - 1] == prefix[j - 1];
          }
        }
      } else {
        var before := prefix[..n - 2];
        PairedEnds(before, -1);
        forall j | 0 <= j < n && log[j].EndSession?
          ensures 0 < j && log[j - 1] == StartSession(log[j].record.sessionId) && log[j].record.sessionId >= 0
        {
          if j < n - 2 {
            assert log[j] == before[j];
            if 0 < j {
              assert log[j - 1] == before[j - 1];
            }
          } else {
            assert j == n - 1 && log[j - 1] == prefix[n - 2];
          }
        }
      }
    }
  }

  /**
   * Read position by position, every start with a usable id is directly followed by its end,
   * unless it is the last call and its session is the one still held.
   */
  lemma {:induction false} PairedStarts(log: seq<StoreCall>, open: int)
    requires Paired(log, open)
    ensures forall i :: 0 <= i < |log| && log[i].StartSession? && log[i].id >= 0 ==>
      if i + 1 < |log| then log[i + 1].EndSession? && log[i + 1].record.sessionId == log[i].id
      else open == log[i].id
  {
    if log != [] {
      var n := |log|;
      var prefix := log[..n - 1];
      if log[n - 1].StartSession? {
        PairedStarts(prefix, -1);
        forall i | 0 <= i < n && log[i].StartSession? && log[i].id >= 0
          ensures if i + 1 < n then log[i + 1].EndSession? && log[i + 1].record.sessionId == log[i].id
                  else open == log[i].id
        {
          if i < n - 1 {
            assert log[i] == prefix[i];
            if i + 1 < n - 1 {
              assert log[i + 1] == prefix[i + 1];
            } else {
              assert false;
            }
          }
        }
      } else {
        var before := prefix[..n - 2];
        PairedStarts(before, -1);
        forall i | 0 <= i < n && log[i].StartSession? && log[i].id >= 0
          ensures i + 1 < n && log[i + 1].EndSession? && log[i + 1].record.sessionId == log[i].id
        {
          if i < n - 2 {
            assert log[i] == before[i];
            if i + 1 < n - 2 {
              assert log[i + 1] == before[i + 1];
            } else {
              assert false;
            }
          } else {
            assert i == n - 2 && log[i] == prefix[n - 2];
          }
        }
      }
    }
  }

  // ---------------------------------------------------------------------------
  // The invariant

  /** The eye timer runs exactly while the eyes are marked closed; the latches stand only during a closure. */
  predicate EyesInv(e: EyeEpisode, clock: int) {
    && (e.eyesWereClosed <==> e.eyeClosedStartTime != 0)
    && 0 <= e.eyeClosedStartTime <= clock
    && (e.warningFired || e.criticalFired ==> e.eyesWereClosed)
    && (e.sosSent <==> e.criticalFired)
  }

  /** The distraction latch stands only while distracted, and the dwell timer lies in the past. */
  predicate DistractionInv(d: Distraction, clock: int) {
    && (d.distractionFired ==> d.isDistracted)
    && (d.isDistracted ==> 0 < d.distractionStartTime)
    && d.distractionStartTime <= clock
  }

  /** The store calls pair up, the session still held being the one left open, and none is held while idle. */
  predicate SessionsAccounted(m: Monitor) {
    && (!m.isMonitoring ==> m.sessionId < 0)
    && Paired(m.store, m.sessionId)
  }

  /**
   * What every reachable state satisfies: the eye and distraction timers and latches agree,
   * SOS was attempted exactly when the critical level was counted, the flash only shows at
   * that level, the timers lie in the past, the alarm needs a player, and no session is lost.
   */
  predicate Inv(m: Monitor) {
    && EyesInv(m.eyes, m.clock)
    && DistractionInv(m.distraction, m.clock)
    && (m.flashVisible ==> m.eyes.criticalFired)
    && m.rate.minuteStartTime <= m.clock
    && m.sessionStartTime <= m.clock
    && (m.alarm.alarmPlaying ==> m.alarm.hasPlayer)
    && SessionsAccounted(m)
  }

  /** The fields as the fragment initialises them, before any session. */
  function Initial(): (m: Monitor)
    ensures Inv(m)
    ensures !m.isMonitoring && m.sessionId < 0 && m.status == Offline && !m.alarm.alarmPlaying
    ensures m.sosLog == [] && m.store == []
  {
    Monitor(false, -1, 0,
            Distraction(false, 0, false), false, EyeEpisode(false, 0, false, false, false),
            Totals(0, 0, 0, 0, 0), BlinkRate(0, 0, None),
            Offline, Alarm(false, false), false, [], [], 0)
  }

  // ---------------------------------------------------------------------------
  // One frame
  //
  // Each rule is a composition of small updates, one function per group of
  // assignments in updateDriverState. A latch and its counter are updated together:
  // `if (!fired) { count++; fired = true; }` leaves `fired` true either way.

  /** Head turned more than 25 degrees either way, or tilted down more than 20 degrees. */
  predicate OffAngle(f: Frame) {
    f.headTurnY > DistractionYaw || f.headTurnY < -DistractionYaw || f.headTiltX < DistractionPitch
  }

  predicate EyesShut(f: Frame) {
    f.ear < EyeClosedThreshold
  }

  /** The frame ends as DISTRACTED: off angle, already distracted, for at least 2000 ms. */
  predicate DistractionDue(m: Monitor, f: Frame, now: int) {
    OffAngle(f) && m.distraction.isDistracted && now - m.distraction.distractionStartTime >= DistractionDwellMs
  }

  /** The frame gets past the distraction and yawn checks to the eye check. */
  predicate ReachesEyeCheck(m: Monitor, f: Frame, now: int) {
    !DistractionDue(m, f, now) && !f.isYawning
  }

  function Show(m: Monitor, s: Status): Monitor {
    m.(status := s)
  }

  function StartAlarm(m: Monitor): Monitor {
    m.(alarm := Started(m.alarm))
  }

  function PauseAlarm(m: Monitor): Monitor {
    m.(alarm := Paused(m.alarm))
  }

  function CountDistraction(m: Monitor): Monitor {
    var fired := m.distraction.distractionFired;
    m.(distraction := m.distraction.(distractionFired := true),
       totals := m.totals.(sessionTotalDistractions := m.totals.sessionTotalDistractions + (if fired then 0 else 1)))
  }

  function DistractedFrame(m: Monitor): Monitor {
    StartAlarm(CountDistraction(Show(m, Distracted)))
  }

  /** Distraction bookkeeping of a frame that does not end as DISTRACTED. */
  function TrackDistraction(d: Distraction, f: Frame, now: int): Distraction {
    if !OffAngle(f) then d.(isDistracted := false, distractionFired := false)
    else if !d.isDistracted then d.(distractionStartTime := now, isDistracted := true)
    else d
  }

  function CountYawn(m: Monitor): Monitor {
    m.(yawnFired := true, totals := m.totals.(sessionTotalYawns := m.totals.sessionTotalYawns + (if m.yawnFired then 0 else 1)))
  }

  function YawningFrame(m: Monitor): Monitor {
    Show(CountYawn(m), Yawning)
  }

  /** When the current closure began: the first closed frame starts the timer. */
  function ClosedSince(e: EyeEpisode, now: int): int {
    if e.eyeClosedStartTime == 0 then now else e.eyeClosedStartTime
  }

  function MarkClosed(e: EyeEpisode, now: int): EyeEpisode {
    e.(eyesWereClosed := true, eyeClosedStartTime := ClosedSince(e, now))
  }

  function CountCritical(m: Monitor): Monitor {
    var fired := m.eyes.criticalFired;
    m.(eyes := m.eyes.(criticalFired := true),
       totals := m.totals.(sessionCriticalCount := m.totals.sessionCriticalCount + (if fired then 0 else 1)))
  }

  /** The SOS is attempted once per closure; the latch is set whatever the attempt's outcome. */
  function SendSosOnce(m: Monitor, env: SosEnv): Monitor {
    m.(sosLog := m.sosLog + (if m.eyes.sosSent then [] else [env]), eyes := m.eyes.(sosSent := true))
  }

  function CriticalFrame(m: Monitor, env: SosEnv): Monitor {
    SendSosOnce(CountCritical(StartAlarm(Show(m, PullOver).(flashVisible := true))), env)
  }

  function CountWarning(m: Monitor): Monitor {
    var fired := m.eyes.warningFired;
    m.(eyes := m.eyes.(warningFired := true),
       totals := m.totals.(sessionWarningCount := m.totals.sessionWarningCount + (if fired then 0 else 1)))
  }

  function WarningFrame(m: Monitor): Monitor {
    CountWarning(StartAlarm(Show(m, WakeUp)))
  }

  /** A closed frame once the timer is running: the single timer decides the level. */
  function ClosedLevel(m: Monitor, now: int, env: SosEnv): Monitor {
    if now - m.eyes.eyeClosedStartTime >= CriticalDwellMs then CriticalFrame(m, env)
    else if now - m.eyes.eyeClosedStartTime >= WarningDwellMs then WarningFrame(m)
    else m
  }

  /** The end of a closure: one blink on both counters, and every eye-episode latch cleared. */
  function EndClosure(m: Monitor): Monitor {
    if m.eyes.eyesWereClosed
    then m.(rate := m.rate.(blinkCount := m.rate.blinkCount + 1),
            totals := m.totals.(sessionTotalBlinks := m.totals.sessionTotalBlinks + 1),
            eyes := m.eyes.(eyesWereClosed := false, warningFired := false, criticalFired := false, sosSent := false))
    else m
  }

  function OpenFrame(m: Monitor): Monitor {
    var ended := EndClosure(m);
    PauseAlarm(Show(ended, Attentive).(eyes := ended.eyes.(eyeClosedStartTime := 0), flashVisible := false))
  }

  function EyeCheck(m: Monitor, f: Frame, now: int, env: SosEnv): Monitor {
    if EyesShut(f) then ClosedLevel(m.(eyes := MarkClosed(m.eyes, now)), now, env) else OpenFrame(m)
  }

  /** Once a minute has passed, show the window's blink count and open a new window. */
  function RollWindow(r: BlinkRate, now: int): BlinkRate {
    if now - r.minuteStartTime >= BlinkWindowMs
    then BlinkRate(0, now, Some(r.blinkCount))
    else r
  }

  /** The rules after the distraction check: yawn, then the eyes, then the blink window. */
  function AfterDistraction(m: Monitor, f: Frame, now: int, env: SosEnv): Monitor {
    if f.isYawning then YawningFrame(m)
    else
      var checked := EyeCheck(m.(yawnFired := false), f, now, env);
      checked.(rate := RollWindow(checked.rate, now))
  }

  /** The state after updateDriverState(f) at time `now`: the rules in their priority order. */
  function Step(m: Monitor, f: Frame, now: int, env: SosEnv): Monitor {
    if DistractionDue(m, f, now) then DistractedFrame(m.(clock := now))
    else AfterDistraction(m.(clock := now, distraction := TrackDistraction(m.distraction, f, now)), f, now, env)
  }

  /**
   * analyzeImage: frames are dropped while not monitoring and when no face is found;
   * otherwise the first face's metrics drive one step.
   */
  function Analyze(m: Monitor, faces: seq<Face>, now: int, env: SosEnv): (r: Monitor)
    ensures !m.isMonitoring || faces == [] ==> r == m
    ensures m.isMonitoring && faces != [] ==> r == Step(m, FrameOf(faces[0]), now, env)
  {
    if !m.isMonitoring then m
    else
      match FirstFaceFrame(faces)
      case None => m
      case Some(f) => Step(m, f, now, env)
  }

  // ---------------------------------------------------------------------------
  // Session lifecycle

  /** Whole seconds between two millisecond times; Java's long division truncates toward zero. */
  function DurationSec(startMs: int, nowMs: int): (sec: int)
    ensures startMs <= nowMs ==> 0 <= sec && sec * 1000 <= nowMs - startMs < sec * 1000 + 1000
    ensures nowMs < startMs ==> sec <= 0 && -sec * 1000 <= startMs - nowMs < -sec * 1000 + 1000
  {
    var elapsed := nowMs - startMs;
    if elapsed >= 0 then elapsed / 1000 else -((-elapsed) / 1000)
  }

  function RecordOf(m: Monitor, now: int): SessionRecord {
    SessionRecord(m.sessionId, DurationSec(m.sessionStartTime, now),
                  m.totals.sessionWarningCount, m.totals.sessionCriticalCount,
                  m.totals.sessionTotalBlinks, m.totals.sessionTotalYawns, m.totals.sessionTotalDistractions)
  }

  /** Every counter, latch and eye timer as a fresh session has them. */
  predicate SessionCleared(m: Monitor) {
    && m.totals == Totals(0, 0, 0, 0, 0)
    && m.eyes == EyeEpisode(false, 0, false, false, false)
    && !m.distraction.isDistracted && !m.distraction.distractionFired
    && !m.yawnFired && m.rate.blinkCount == 0
  }

  /** The blink window, the session clock, every counter, latch and eye timer restarted at `now`. */
  function ResetSession(m: Monitor, now: int): Monitor {
    m.(sessionStartTime := now,
       rate := m.rate.(blinkCount := 0, minuteStartTime := now),
       totals := Totals(0, 0, 0, 0, 0),
       eyes := EyeEpisode(false, 0, false, false, false),
       distraction := m.distraction.(isDistracted := false, distractionFired := false),
       yawnFired := false)
  }

  /** startMonitoring: nothing happens without the camera and SMS permissions. */
  function Start(m: Monitor, permissionsGranted: bool, playerCreated: bool, newId: int, now: int): (r: Monitor)
    ensures !permissionsGranted ==> r == m
    ensures permissionsGranted ==> r.isMonitoring && SessionCleared(r) && !r.alarm.alarmPlaying && !r.flashVisible
    ensures permissionsGranted ==> r.sessionId == newId && r.store == m.store + [StartSession(newId)]
    ensures permissionsGranted ==> r.sessionStartTime == now && r.rate.minuteStartTime == now
    ensures permissionsGranted ==> r.alarm.hasPlayer == playerCreated && r.clock == now
    ensures r.sosLog == m.sosLog && r.status == m.status
  {
    if !permissionsGranted then m
    else
      ResetSession(m.(isMonitoring := true), now).(
        flashVisible := false, alarm := Alarm(playerCreated, false),
        sessionId := newId, store := m.store + [StartSession(newId)], clock := now)
  }

  /** Writes the open session to the store and forgets its id. */
  function Flush(m: Monitor, now: int): Monitor {
    m.(store := m.store + [EndSession(RecordOf(m, now))], sessionId := -1)
  }

  /** stopMonitoring: flushes the session if there is one, shows OFFLINE, hides the flash, pauses the alarm. */
  function Stop(m: Monitor, now: int): (r: Monitor)
    ensures !r.isMonitoring && r.sessionId < 0
    ensures m.sessionId >= 0 ==> r.store == m.store + [EndSession(RecordOf(m, now))]
    ensures m.sessionId < 0 ==> r.store == m.store
    ensures r.status == Offline && !r.flashVisible && r.alarm.hasPlayer == m.alarm.hasPlayer
    ensures m.alarm.hasPlayer || !m.alarm.alarmPlaying ==> !r.alarm.alarmPlaying
    ensures r.eyes == m.eyes && r.distraction == m.distraction && r.yawnFired == m.yawnFired
  {
    var flushed := if m.sessionId >= 0 then Flush(m, now) else m;
    flushed.(isMonitoring := false, status := Offline, flashVisible := false,
             alarm := Paused(flushed.alarm), clock := now)
  }

  /** onDestroyView: flushes only a session that is still being monitored, and releases the player. */
  function Destroy(m: Monitor, now: int): (r: Monitor)
    ensures m.isMonitoring && m.sessionId >= 0 ==> r.store == m.store + [EndSession(RecordOf(m, now))]
    ensures !(m.isMonitoring && m.sessionId >= 0) ==> r.store == m.store
    ensures !r.isMonitoring && r.alarm == Alarm(false, false)
  {
    var flushed := if m.isMonitoring && m.sessionId >= 0 then Flush(m, now) else m;
    flushed.(isMonitoring := false, alarm := Alarm(false, false), clock := now)
  }

  /** The start/stop button. */
  function Click(m: Monitor, permissionsGranted: bool, playerCreated: bool, newId: int, now: int): Monitor {
    if !m.isMonitoring then Start(m, permissionsGranted, playerCreated, newId, now) else Stop(m, now)
  }
}
