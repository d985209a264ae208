/**
 * The session lifecycle: startMonitoring, stopMonitoring, onDestroyView and the start/stop
 * button keep the invariant, and between them every session the store opens is ended once.
 */
module Lifecycle {
  import opened DriverState

  /** The button only starts a session when none is running, and the new session starts clean. */
  lemma StartPreservesInv(m: Monitor, permissionsGranted: bool, playerCreated: bool, newId: int, now: int)
    requires Inv(m) && !m.isMonitoring && m.clock <= now
    ensures var r := Start(m, permissionsGranted, playerCreated, newId, now);
      Inv(r) && (permissionsGranted && newId >= 0 ==> OpenedCount(r.store) == OpenedCount(m.store) + 1)
  {
    if permissionsGranted {
      CountsAppend(m.store, StartSession(newId));
      PairedStart(m.store, m.sessionId, newId);
    }
  }

  /** Stopping keeps the invariant and leaves no session open in the store. */
  lemma StopPreservesInv(m: Monitor, now: int)
    requires Inv(m) && m.clock <= now
    ensures var r := Stop(m, now); Inv(r) && OpenedCount(r.store) == EndedCount(r.store) && !r.alarm.alarmPlaying
  {
    if m.sessionId >= 0 {
      PairedEnd(m.store, m.sessionId, RecordOf(m, now));
    }
    PairedCounts(Stop(m, now).store, Stop(m, now).sessionId);
  }

  /** Tearing the view down keeps the invariant and leaves no session open in the store. */
  lemma DestroyPreservesInv(m: Monitor, now: int)
    requires Inv(m) && m.clock <= now
    ensures var r := Destroy(m, now); Inv(r) && OpenedCount(r.store) == EndedCount(r.store)
  {
    if m.isMonitoring && m.sessionId >= 0 {
      PairedEnd(m.store, m.sessionId, RecordOf(m, now));
    }
    PairedCounts(Destroy(m, now).store, Destroy(m, now).sessionId);
  }

  /** The button toggles monitoring: it starts when idle (given the permissions) and stops when running. */
  lemma ClickToggles(m: Monitor, permissionsGranted: bool, playerCreated: bool, newId: int, now: int)
    requires Inv(m) && m.clock <= now
    ensures var r := Click(m, permissionsGranted, playerCreated, newId, now);
      Inv(r) && (m.isMonitoring ==> !r.isMonitoring) && (!m.isMonitoring && permissionsGranted ==> r.isMonitoring)
      && (!m.isMonitoring && !permissionsGranted ==> r == m)
  {
    if m.isMonitoring {
      StopPreservesInv(m, now);
    } else {
      StartPreservesInv(m, permissionsGranted, playerCreated, newId, now);
    }
  }

  /** A session is flushed once: stopping again, or tearing the view down after a stop, writes nothing. */
  lemma FlushOnce(m: Monitor, t1: int, t2: int)
    ensures Stop(Stop(m, t1), t2) == Stop(m, t1).(clock := t2)
    ensures Destroy(Stop(m, t1), t2).store == Stop(m, t1).store
  {
  }

  /** While monitoring, tearing the view down records exactly what stopping would have recorded. */
  lemma DestroyFlushesLikeStop(m: Monitor, now: int)
    requires m.isMonitoring
    ensures Destroy(m, now).store == Stop(m, now).store
  {
  }

  /** The record written for a session carries its counters and its whole seconds, rounded down. */
  lemma FlushedRecord(m: Monitor, now: int)
    requires Inv(m) && m.sessionId >= 0 && m.clock <= now
    ensures var r := Stop(m, now); var rec := r.store[|r.store| - 1].record;
      r.store[|r.store| - 1].EndSession? && rec.sessionId == m.sessionId
      && rec.warnings == m.totals.sessionWarningCount && rec.criticals == m.totals.sessionCriticalCount
      && rec.blinks == m.totals.sessionTotalBlinks && rec.yawns == m.totals.sessionTotalYawns
      && rec.distractions == m.totals.sessionTotalDistractions
      && 0 <= rec.durationSec && rec.durationSec * 1000 <= now - m.sessionStartTime < rec.durationSec * 1000 + 1000
  {
  }
}
