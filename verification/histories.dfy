/**
 * Whole histories of the fragment: camera frames, button presses and the view's teardown
 * in timestamp order. Over any such history the invariant holds, the session store is only
 * appended to, and once the view is gone every session it opened has been ended. Over a run
 * of frames, a sustained condition is counted at most once.
 */
module Histories {
  import opened Wrappers
  import opened FrameMetrics
  import opened Sos
  import opened DriverState
  import opened StepRules
  import opened Lifecycle

  /** What reaches the monitor: a camera frame, a press of the start/stop button, or the view going away. */
  datatype Event =
    | Camera(faces: seq<Face>, now: int, env: SosEnv)
    | Press(permissionsGranted: bool, playerCreated: bool, newId: int, now: int)
    | Teardown(now: int)

  function Apply(m: Monitor, e: Event): Monitor {
    match e
    case Camera(faces, now, env) => Analyze(m, faces, now, env)
    case Press(granted, playerCreated, newId, now) => Click(m, granted, playerCreated, newId, now)
    case Teardown(now) => Destroy(m, now)
  }

  /** The state after the events, the last one applied last. */
  function Replay(m: Monitor, events: seq<Event>): Monitor {
    if events == [] then m else Apply(Replay(m, events[..|events| - 1]), events[|events| - 1])
  }

  /** The latest timestamp of the history, `since` for an empty one. */
  function Latest(since: int, events: seq<Event>): int {
    if events == [] then since else events[|events| - 1].now
  }

  /** Timestamps are positive and never go backwards, starting from `since`. */
  predicate Timely(since: int, events: seq<Event>) {
    events == [] ||
    (Timely(since, events[..|events| - 1])
     && 0 < events[|events| - 1].now && Latest(since, events[..|events| - 1]) <= events[|events| - 1].now)
  }

  lemma ApplyPreservesInv(m: Monitor, e: Event)
    requires Inv(m) && 0 < e.now && m.clock <= e.now
    ensures Inv(Apply(m, e)) && Apply(m, e).clock <= e.now
    ensures m.store <= Apply(m, e).store
  {
    match e
    case Camera(faces, now, env) =>
      if m.isMonitoring && faces != [] {
        StepPreservesInv(m, FrameOf(faces[0]), now, env);
        StepKeepsSession(m, FrameOf(faces[0]), now, env);
      }
    case Press(granted, playerCreated, newId, now) =>
      ClickToggles(m, granted, playerCreated, newId, now);
    case Teardown(now) =>
      DestroyPreservesInv(m, now);
  }

  /** Every state a timely history reaches satisfies the invariant; the store is only appended to. */
  lemma {:induction false} ReplayPreservesInv(m: Monitor, since: int, events: seq<Event>)
    requires Inv(m) && m.clock <= since && Timely(since, events)
    ensures var r := Replay(m, events); Inv(r) && r.clock <= Latest(since, events) && m.store <= r.store
  {
    if events != [] {
      var prefix := events[..|events| - 1];
      ReplayPreservesInv(m, since, prefix);
      ApplyPreservesInv(Replay(m, prefix), events[|events| - 1]);
    }
  }

  /**
   * Once the view is torn down, every session the store opened with a usable id has been ended
   * exactly once: its end is the very next store call, and every end directly follows the start
   * of the session it names.
   */
  lemma {:induction false} NoSessionLost(events: seq<Event>)
    requires Timely(0, events) && events != [] && events[|events| - 1].Teardown?
    ensures var r := Replay(Initial(), events);
      !r.isMonitoring && OpenedCount(r.store) == EndedCount(r.store)
    ensures var log := Replay(Initial(), events).store;
      forall i :: 0 <= i < |log| && log[i].StartSession? && log[i].id >= 0 ==>
        i + 1 < |log| && log[i + 1].EndSession? && log[i + 1].record.sessionId == log[i].id
    ensures var log := Replay(Initial(), events).store;
      forall j :: 0 <= j < |log| && log[j].EndSession? ==>
        0 < j && log[j - 1] == StartSession(log[j].record.sessionId) && log[j].record.sessionId >= 0
  {
    var prefix := events[..|events| - 1];
    ReplayPreservesInv(Initial(), 0, prefix);
    DestroyPreservesInv(Replay(Initial(), prefix), events[|events| - 1].now);
    var r := Replay(Initial(), events);
    PairedEnds(r.store, r.sessionId);
    PairedStarts(r.store, r.sessionId);
  }

  // ---------------------------------------------------------------------------
  // Runs of frames within one session

  /** One call of updateDriverState: the frame's metrics, its time, and what an SOS would find. */
  datatype Tick = Tick(frame: Frame, now: int, env: SosEnv)

  function Run(m: Monitor, ticks: seq<Tick>): Monitor {
    if ticks == [] then m
    else
      var last := ticks[|ticks| - 1];
      Step(Run(m, ticks[..|ticks| - 1]), last.frame, last.now, last.env)
  }

  /** Every frame of the run continues the condition behind `c`. */
  predicate Sustained(c: Category, ticks: seq<Tick>) {
    forall i :: 0 <= i < |ticks| ==> Persists(c, ticks[i].frame)
  }

  /**
   * A sustained condition is counted at most once: a head turn held over many frames is one
   * distraction, a long yawn one yawn, a long closure one warning, one critical event and at
   * most one SOS attempt; and one already counted when the run starts is not counted again.
   */
  lemma {:induction false} SustainedCountedOnce(m: Monitor, ticks: seq<Tick>, c: Category)
    requires Sustained(c, ticks)
    ensures var r := Run(m, ticks);
      Count(r, c) <= Count(m, c) + (if Latched(m, c) then 0 else 1)
      && (Latched(m, c) ==> Latched(r, c))
      && (Count(r, c) == Count(m, c) || Latched(r, c))
  {
    if ticks != [] {
      var prefix := ticks[..|ticks| - 1];
      var last := ticks[|ticks| - 1];
      assert Sustained(c, prefix) by {
        forall i | 0 <= i < |prefix| ensures Persists(c, prefix[i].frame) {
          assert prefix[i] == ticks[i];
        }
      }
      SustainedCountedOnce(m, prefix, c);
      assert Persists(c, last.frame);
      StepLatchDiscipline(Run(m, prefix), last.frame, last.now, last.env, c);
    }
  }

  /** No frame of the run gets to the eye check with the eyes open, so the closure episode goes on. */
  predicate StaysClosed(m: Monitor, ticks: seq<Tick>) {
    forall i :: 0 <= i < |ticks| ==> !Reopens(Run(m, ticks[..i]), ticks[i].frame, ticks[i].now)
  }

  /**
   * Within one eye-closure episode (until a frame reaches the eye check with the eyes open),
   * the warning, the critical event and the SOS are each counted at most once, whatever else
   * the frames do: DISTRACTED and YAWNING frames neither end the episode nor count again.
   */
  lemma {:induction false} EpisodeCountedOnce(m: Monitor, ticks: seq<Tick>, c: Category)
    requires c.Warnings? || c.Criticals? || c.SosAttempts?
    requires StaysClosed(m, ticks)
    ensures var r := Run(m, ticks);
      Count(r, c) <= Count(m, c) + (if Latched(m, c) then 0 else 1)
      && (Latched(m, c) ==> Latched(r, c))
      && (Count(r, c) == Count(m, c) || Latched(r, c))
  {
    if ticks != [] {
      var prefix := ticks[..|ticks| - 1];
      var last := ticks[|ticks| - 1];
      assert StaysClosed(m, prefix) by {
        forall i | 0 <= i < |prefix| ensures !Reopens(Run(m, prefix[..i]), prefix[i].frame, prefix[i].now) {
          assert prefix[..i] == ticks[..i];
          assert prefix[i] == ticks[i];
        }
      }
      EpisodeCountedOnce(m, prefix, c);
      assert !Reopens(Run(m, ticks[..|ticks| - 1]), last.frame, last.now);
      ClosureLatchDiscipline(Run(m, prefix), last.frame, last.now, last.env, c);
    }
  }

  /** Between two reopenings of the eyes at most one SOS goes out, and none if one already has. */
  lemma SosOncePerEpisode(m: Monitor, ticks: seq<Tick>)
    requires StaysClosed(m, ticks)
    ensures |Run(m, ticks).sosLog| <= |m.sosLog| + (if m.eyes.sosSent then 0 else 1)
  {
    EpisodeCountedOnce(m, ticks, SosAttempts);
  }

  // ---------------------------------------------------------------------------
  // What a whole session writes to the store

  /** How many frames of the run raised the latch of `c`. */
  function Raises(m: Monitor, ticks: seq<Tick>, c: Category): nat {
    if ticks == [] then 0
    else
      var prefix := ticks[..|ticks| - 1];
      Raises(m, prefix, c) + (if !Latched(Run(m, prefix), c) && Latched(Run(m, ticks), c) then 1 else 0)
  }

  /** How many frames of the run ended an eye closure. */
  function Blinks(m: Monitor, ticks: seq<Tick>): nat {
    if ticks == [] then 0
    else
      var prefix := ticks[..|ticks| - 1];
      Blinks(m, prefix) + (if Run(m, prefix).eyes.eyesWereClosed && !Run(m, ticks).eyes.eyesWereClosed then 1 else 0)
  }

  /** Over a run, a latched counter grows by the number of frames that raised its latch. */
  lemma {:induction false} CountIsRaises(m: Monitor, ticks: seq<Tick>, c: Category)
    ensures Count(Run(m, ticks), c) == Count(m, c) + Raises(m, ticks, c)
  {
    if ticks != [] {
      var prefix := ticks[..|ticks| - 1];
      var last := ticks[|ticks| - 1];
      CountIsRaises(m, prefix, c);
      StepLatchDiscipline(Run(m, prefix), last.frame, last.now, last.env, c);
    }
  }

  /** Over a run, the session blink total grows by the number of frames that ended a closure. */
  lemma {:induction false} BlinkTotalIsBlinks(m: Monitor, ticks: seq<Tick>)
    ensures Run(m, ticks).totals.sessionTotalBlinks == m.totals.sessionTotalBlinks + Blinks(m, ticks)
  {
    if ticks != [] {
      var prefix := ticks[..|ticks| - 1];
      var last := ticks[|ticks| - 1];
      BlinkTotalIsBlinks(m, prefix);
      BlinkCounting(Run(m, prefix), last.frame, last.now, last.env);
    }
  }

  /** A run of frames leaves the session as it found it. */
  lemma {:induction false} RunKeepsSession(m: Monitor, ticks: seq<Tick>)
    ensures var r := Run(m, ticks);
      r.store == m.store && r.sessionId == m.sessionId && r.sessionStartTime == m.sessionStartTime
  {
    if ticks != [] {
      var prefix := ticks[..|ticks| - 1];
      var last := ticks[|ticks| - 1];
      RunKeepsSession(m, prefix);
      StepKeepsSession(Run(m, prefix), last.frame, last.now, last.env);
    }
  }

  /** A run from zeroed counters ends with each counter equal to what its frames raised. */
  lemma RunTotalsFromZero(s: Monitor, ticks: seq<Tick>)
    requires s.totals == Totals(0, 0, 0, 0, 0)
    ensures Run(s, ticks).totals == Totals(Blinks(s, ticks), Raises(s, ticks, Yawns), Raises(s, ticks, Distractions),
                                           Raises(s, ticks, Warnings), Raises(s, ticks, Criticals))
  {
    CountIsRaises(s, ticks, Warnings);
    CountIsRaises(s, ticks, Criticals);
    CountIsRaises(s, ticks, Yawns);
    CountIsRaises(s, ticks, Distractions);
    BlinkTotalIsBlinks(s, ticks);
  }

  /**
   * A whole session: started with a usable id, driven by any frames, then stopped. The store
   * gets exactly two calls, and the record holds the whole seconds between start and stop and,
   * for each counter, the number of frames that raised its latch (for blinks, that ended a
   * closure).
   */
  lemma SessionRecordCounts(m: Monitor, playerCreated: bool, id: int, start: int, ticks: seq<Tick>, stop: int)
    requires id >= 0
    ensures var s := Start(m, true, playerCreated, id, start);
      Stop(Run(s, ticks), stop).store == m.store + [StartSession(id), EndSession(SessionRecord(
        id, DurationSec(start, stop), Raises(s, ticks, Warnings), Raises(s, ticks, Criticals),
        Blinks(s, ticks), Raises(s, ticks, Yawns), Raises(s, ticks, Distractions)))]
  {
    var s := Start(m, true, playerCreated, id, start);
    var r := Run(s, ticks);
    RunKeepsSession(s, ticks);
    RunTotalsFromZero(s, ticks);
    assert Stop(r, stop).store == s.store + [EndSession(RecordOf(r, stop))];
  }

  // ---------------------------------------------------------------------------
  // One drive, step by step

  /** A forward-facing, eyes-open, non-yawning frame, and the same face with its eyes shut. */
  const Open := Frame(0.9, 0.0, 0.0, false)
  const Shut := Frame(0.1, 0.0, 0.0, false)

  /**
   * A session started at 1000 ms with the eyes shut from the first frame: nothing shown at
   * 1000 ms, WAKE UP at 2000 ms, PULL OVER and one SOS attempt at 11000 ms.
   */
  lemma DriveScenario(env: SosEnv)
    ensures var m0 := Start(Initial(), true, true, 7, 1000);
      var m1 := Step(m0, Shut, 1000, env);
      var m2 := Step(m1, Shut, 2000, env);
      var m3 := Step(m2, Shut, 11000, env);
      m1.status == Offline && m2.status == WakeUp && m2.alarm.alarmPlaying
      && m3.status == PullOver && m3.flashVisible && m3.sosLog == [env]
      && m3.eyes == EyeEpisode(true, 1000, true, true, true) && m3.totals == Totals(0, 0, 0, 1, 1)
      && m3.sessionId == 7 && m3.sessionStartTime == 1000 && m3.store == [StartSession(7)]
      && m3.rate.blinkCount == 0 && m3.rate.minuteStartTime == 1000 && m3.alarm == Alarm(true, true)
  {
    var m0 := Start(Initial(), true, true, 7, 1000);
    StepClosedQuiet(m0, Shut, 1000, env);
    var m1 := Step(m0, Shut, 1000, env);
    StepWarning(m1, Shut, 2000, env);
    var m2 := Step(m1, Shut, 2000, env);
    StepCritical(m2, Shut, 11000, env);
  }

  /**
   * The same drive continued from PULL OVER: no second SOS attempt at 12000 ms, ATTENTIVE
   * again at 12500 ms with the alarm paused and one blink, and a stop at 13999 ms that
   * records 12 whole seconds, one warning, one critical event and one blink.
   */
  lemma DriveScenarioEnds(m3: Monitor, env: SosEnv)
    requires m3.status == PullOver && m3.flashVisible && m3.sosLog == [env]
    requires m3.eyes == EyeEpisode(true, 1000, true, true, true) && m3.totals == Totals(0, 0, 0, 1, 1)
    requires m3.sessionId == 7 && m3.sessionStartTime == 1000 && m3.store == [StartSession(7)]
    requires m3.rate.blinkCount == 0 && m3.rate.minuteStartTime == 1000 && m3.alarm == Alarm(true, true)
    ensures var m4 := Step(m3, Shut, 12000, env);
      var m5 := Step(m4, Open, 12500, env);
      var m6 := Stop(m5, 13999);
      m4.sosLog == [env] && m5.status == Attentive && !m5.alarm.alarmPlaying && !m5.flashVisible
      && m6.store == [StartSession(7), EndSession(SessionRecord(7, 12, 1, 1, 1, 0, 0))]
  {
    StepCritical(m3, Shut, 12000, env);
    var m4 := Step(m3, Shut, 12000, env);
    StepOpen(m4, Open, 12500, env);
  }

  /** Eyes shut, head turned away: the distraction timer and the closure timer both start. */
  const ShutAway := Frame(0.1, 40.0, 0.0, false)
  /** Eyes open, head still turned away. */
  const OpenAway := Frame(0.9, 40.0, 0.0, false)

  /**
   * A DISTRACTED frame returns before the eye check, so it does not end a closure even with
   * the eyes open: shut at 1000 ms, DISTRACTED with open eyes at 3000 ms, shut again at
   * 11000 ms, and the closure timer started at 1000 ms yields PULL OVER and an SOS attempt.
   */
  lemma DistractionKeepsClosureTimer(env: SosEnv)
    ensures var m0 := Start(Initial(), true, true, 7, 1000);
      var m1 := Step(m0, ShutAway, 1000, env);
      var m2 := Step(m1, OpenAway, 3000, env);
      var m3 := Step(m2, Shut, 11000, env);
      m2.status == Distracted && m2.eyes.eyesWereClosed && m2.eyes.eyeClosedStartTime == 1000
      && m3.status == PullOver && m3.sosLog == [env]
  {
    var m0 := Start(Initial(), true, true, 7, 1000);
    StepClosedQuiet(m0, ShutAway, 1000, env);
    var m1 := Step(m0, ShutAway, 1000, env);
    StepDistracted(m1, OpenAway, 3000, env);
    var m2 := Step(m1, OpenAway, 3000, env);
    StepCritical(m2, Shut, 11000, env);
  }
}
