/**
 * The per-frame logic of `main_backend` in backend/src/monitor.py.
 *
 * Each camera frame contributes the posture measurements (absent when no pose
 * landmarks were found), whether a face is visible, whether the eyes are closed
 * (the averaged eye aspect ratio is below 0.23) and the wall-clock time.
 * The loop keeps a bounded history of pose scores, a 60-second window of
 * blink timestamps, a closed-eye frame counter and two "prolonged state"
 * hysteresis machines, and broadcasts the websocket events they emit.
 *
 * `FrameStep` below is the pure specification of one loop iteration;
 * `MonitorLoop` is the loop itself, with the variables it updates in place,
 * and its `Step` method is proved to follow the specification.
 */
module Monitor {
  import opened Optional
  import opened PostureScore

  const EarConsecFrames: nat := 2
  const BlinkWindowSec: real := 60.0
  const BlinkSeedCount: nat := 15
  const BadPostureAverage: real := 0.67
  const PostureProlongedThresholdSec: real := 2.0
  const LowBlinkRateThreshold: nat := 8
  const LowBlinkProlongedThresholdSec: real := 2.0
  const HistoryWindowSec: real := 3.0
  const DefaultFps: real := 30.0
  const MaxFps: real := 120.0

  /** `current_posture`: "bad", "good" or "unknown". */
  datatype Posture = Bad | Good | Unknown

  datatype BlinkResolution = BackToNormal | FaceNotVisible

  /** The four websocket messages the loop broadcasts. */
  datatype Event =
    | PostureWarning(badDurationSec: int)
    | PostureResolved
    | BlinkWarning(lowRatePerMin: nat, lowDurationSec: int)
    | BlinkResolved(status: BlinkResolution, ratePerMin: Option<nat>)

  /** What one camera frame contributes to the loop. */
  datatype Observation = Observation(now: real, pose: Option<Metrics>, faceVisible: bool, eyesClosed: bool)

  /** A camera frame once its measurements are scored: the badness score replaces them. */
  datatype Frame = Frame(now: real, poseScore: Option<real>, faceVisible: bool, eyesClosed: bool)

  /** `compute_bad_posture_score` applied to a frame's measurements, when there are any. */
  function Score(o: Observation): (f: Frame)
    ensures f.now == o.now && f.faceVisible == o.faceVisible && f.eyesClosed == o.eyesClosed
    ensures f.poseScore.Some? <==> o.pose.Some?
    ensures f.poseScore.Some? ==> 0.0 <= f.poseScore.value <= 1.0
  {
    Frame(o.now, if o.pose.Some? then Some(BadPostureScore(o.pose.value)) else None, o.faceVisible, o.eyesClosed)
  }

  /** One hysteresis machine: when the current streak began, and whether its warning was sent. */
  datatype Streak = Streak(since: Option<real>, active: bool)

  /** The edge a hysteresis machine reports: a warning (with the streak's duration) or a resolve. */
  datatype Edge = Rise(duration: real) | Fall

  datatype StreakStep = StreakStep(streak: Streak, edge: Option<Edge>)

  /** All loop variables that survive from one frame to the next. */
  datatype State = State(
    frameCounter: nat,
    blinkTimes: seq<real>,
    capacity: nat,
    badHistory: seq<real>,
    posture: Streak,
    lowBlink: Streak)

  datatype Outcome = Outcome(next: State, events: seq<Event>)

  /** The posture history after a frame, and the frame's posture class. */
  datatype Classified = Classified(history: seq<real>, posture: Posture)

  /** The closed-eye counter and the blink timestamps after the counting step. */
  datatype Counted = Counted(counter: nat, times: seq<real>)

  /** Python's `int()` on a float: truncation toward zero. */
  function Trunc(x: real): (r: int)
    ensures x >= 0.0 ==> 0 <= r && r as real <= x < r as real + 1.0
    ensures x < 0.0 ==> r <= 0 && x <= r as real < x + 1.0
  {
    if x >= 0.0 then x.Floor else -((-x).Floor)
  }

  /** The frame rate after the fallback for a camera reporting nothing sensible. */
  function EffectiveFps(fps: real): (r: real)
    ensures 0.0 < r <= MaxFps
    ensures 0.0 < fps <= MaxFps ==> r == fps
    ensures !(0.0 < fps <= MaxFps) ==> r == DefaultFps
  {
    if fps <= 0.0 || fps > MaxFps then DefaultFps else fps
  }

  /** `maxlen` of `bad_history`: `int(fps * window_seconds)`. */
  function HistoryCapacity(fps: real): (n: nat)
    ensures n <= 360
    ensures n as real <= EffectiveFps(fps) * HistoryWindowSec < n as real + 1.0
  {
    (EffectiveFps(fps) * HistoryWindowSec).Floor
  }

  /** Appending to a `deque(maxlen = cap)`: the last `cap` elements of `h + [x]`. */
  function BoundedAppend(h: seq<real>, cap: nat, x: real): (r: seq<real>)
    ensures |r| == if |h| + 1 <= cap then |h| + 1 else cap
    ensures r == (h + [x])[|h| + 1 - |r|..]
  {
    if |h| < cap then h + [x] else (h + [x])[|h| + 1 - cap..]
  }

  function Sum(s: seq<real>): real
  {
    if s == [] then 0.0 else Sum(s[..|s| - 1]) + s[|s| - 1]
  }

  /**
   * Smoothed classification of a frame with pose landmarks: "bad" when the
   * mean of the history exceeds 0.67. The mean of an empty history is NaN
   * in numpy, and NaN compares false, so an empty history reads "good".
   */
  function SmoothedPosture(history: seq<real>): (p: Posture)
    ensures p != Unknown
    ensures p == Bad <==> |history| > 0 && Sum(history) / |history| as real > BadPostureAverage
  {
    if |history| > 0 && Sum(history) / |history| as real > BadPostureAverage then Bad else Good
  }

  /**
   * The closed-eye counter on a frame with a visible face: a closed-eye frame
   * extends the run; an open-eye frame records a blink at `now` when the run
   * was at least `EarConsecFrames` long, and resets the run.
   */
  function CountBlink(counter: nat, times: seq<real>, now: real, eyesClosed: bool): (r: Counted)
    ensures eyesClosed ==> r == Counted(counter + 1, times)
    ensures !eyesClosed ==> r.counter == 0
    ensures r.times == times + [now] <==> !eyesClosed && counter >= EarConsecFrames
    ensures r.times == times || r.times == times + [now]
  {
    if eyesClosed then Counted(counter + 1, times)
    else if counter >= EarConsecFrames then Counted(0, times + [now])
    else Counted(0, times)
  }

  /** The counting step of a frame: only a frame with a visible face touches the counter. */
  function CountFrame(counter: nat, times: seq<real>, f: Frame): Counted
  {
    if f.faceVisible then CountBlink(counter, times, f.now, f.eyesClosed) else Counted(counter, times)
  }

  /** The cleanup loop: pop timestamps from the front while they are more than 60 s older than `now`. */
  function DropExpired(times: seq<real>, now: real): (r: seq<real>)
    ensures |r| <= |times|
    ensures r != [] ==> now - r[0] <= BlinkWindowSec
    decreases |times|
  {
    if times != [] && now - times[0] > BlinkWindowSec then DropExpired(times[1..], now) else times
  }

  /**
   * What the cleanup keeps is a suffix of its input, in the same order, whose
   * first element (if any) is within the window; everything popped was outside it.
   */
  lemma {:induction false} DropExpiredSuffix(times: seq<real>, now: real)
    ensures var r := DropExpired(times, now);
      && |r| <= |times| && r == times[|times| - |r|..]
      && (r != [] ==> now - r[0] <= BlinkWindowSec)
      && forall i :: 0 <= i < |times| - |r| ==> now - times[i] > BlinkWindowSec
    decreases |times|
  {
    if times != [] && now - times[0] > BlinkWindowSec {
      DropExpiredSuffix(times[1..], now);
    }
  }

  /**
   * One hysteresis machine for one frame. While `holding` (bad posture, low
   * blink rate), the streak starts at the first holding frame and a single
   * `Rise` fires once it has lasted `threshold` seconds; a non-holding frame
   * breaks the streak, and fires `Fall` exactly when the warning was active.
   */
  function Advance(s: Streak, now: real, holding: bool, threshold: real): (t: StreakStep)
    ensures t.streak.active == (s.active != t.edge.Some?)
    ensures !holding ==> t.streak == Streak(None, false) && (t.edge.Some? <==> s.active) && (t.edge.Some? ==> t.edge.value == Fall)
    ensures holding ==> t.streak.since == Some(if s.since.Some? then s.since.value else now)
    ensures holding ==>
      (t.edge.Some? <==> !s.active && now - t.streak.since.value >= threshold) &&
      (t.edge.Some? ==> t.edge.value == Rise(now - t.streak.since.value))
  {
    if holding then
      var since := if s.since.Some? then s.since.value else now;
      var duration := now - since;
      if !s.active && duration >= threshold then StreakStep(Streak(Some(since), true), Some(Rise(duration)))
      else StreakStep(Streak(Some(since), s.active), None)
    else if s.active then StreakStep(Streak(None, false), Some(Fall))
    else StreakStep(Streak(None, false), None)
  }

  /** The posture machine: "unknown" breaks a streak just like "good". */
  function PostureEvent(e: Option<Edge>): seq<Event>
  {
    match e
    case None => []
    case Some(Rise(d)) => [PostureWarning(Trunc(d))]
    case Some(Fall) => [PostureResolved]
  }

  /** The low-blink machine: a rate of 8 or more resolves "back_to_normal", a lost face "face_not_visible". */
  function BlinkEvent(e: Option<Edge>, rate: Option<nat>): seq<Event>
  {
    match e
    case None => []
    case Some(Rise(d)) => if rate.Some? then [BlinkWarning(rate.value, Trunc(d))] else []
    case Some(Fall) => [BlinkResolved(if rate.Some? then BackToNormal else FaceNotVisible, rate)]
  }

  predicate IsLowRate(rate: Option<nat>)
  {
    rate.Some? && rate.value < LowBlinkRateThreshold
  }

  /** The state before the first frame: 15 seeded blink timestamps at start-up, both machines idle. */
  function Init(startTime: real, fps: real): (s: State)
    ensures |s.blinkTimes| == BlinkSeedCount && forall i :: 0 <= i < |s.blinkTimes| ==> s.blinkTimes[i] == startTime
    ensures s.badHistory == [] && s.capacity == HistoryCapacity(fps)
    ensures !s.posture.active && !s.lowBlink.active && s.frameCounter == 0
  {
    State(0, seq(BlinkSeedCount, _ => startTime), HistoryCapacity(fps), [],
          Streak(None, false), Streak(None, false))
  }

  /** The posture class of a frame and the history after it: the frame's badness score joins the history. */
  function ClassifyPosture(history: seq<real>, capacity: nat, score: Option<real>): (c: Classified)
    ensures c.posture == Unknown <==> score.None?
    ensures score.None? ==> c.history == history
    ensures score.Some? && capacity > 0 ==> c.history != [] && c.history[|c.history| - 1] == score.value
    ensures score.Some? ==> |c.history| <= if |history| < capacity then |history| + 1 else capacity
    ensures score.Some? ==> c.posture == SmoothedPosture(c.history)
  {
    match score
    case None => Classified(history, Unknown)
    case Some(x) =>
      var h := BoundedAppend(history, capacity, x);
      Classified(h, SmoothedPosture(h))
  }

  /** `blink_rate`: the window's size when the face is visible, `None` otherwise. */
  function BlinkRate(faceVisible: bool, window: seq<real>): (r: Option<nat>)
    ensures r.Some? <==> faceVisible
    ensures r.Some? ==> r.value == |window|
  {
    if faceVisible then Some(|window|) else None
  }

  /** One iteration of the `while True` loop of `main_backend`. */
  function FrameStep(s: State, f: Frame): (o: Outcome)
    ensures o.next.capacity == s.capacity
    ensures f.poseScore.None? ==> o.next.badHistory == s.badHistory
  {
    var c := ClassifyPosture(s.badHistory, s.capacity, f.poseScore);
    var n := CountFrame(s.frameCounter, s.blinkTimes, f);
    var window := DropExpired(n.times, f.now);
    var rate := BlinkRate(f.faceVisible, window);
    var p := Advance(s.posture, f.now, c.posture == Bad, PostureProlongedThresholdSec);
    var b := Advance(s.lowBlink, f.now, IsLowRate(rate), LowBlinkProlongedThresholdSec);
    Outcome(State(n.counter, window, s.capacity, c.history, p.streak, b.streak),
            PostureEvent(p.edge) + BlinkEvent(b.edge, rate))
  }

  /** FrameStep assembled from its parts, so that the loop can be checked piece by piece. */
  lemma FrameStepParts(s: State, f: Frame, c: Classified, n: Counted, rate: Option<nat>, p: StreakStep, b: StreakStep)
    requires c == ClassifyPosture(s.badHistory, s.capacity, f.poseScore)
    requires n.counter == CountFrame(s.frameCounter, s.blinkTimes, f).counter
    requires n.times == DropExpired(CountFrame(s.frameCounter, s.blinkTimes, f).times, f.now)
    requires rate == BlinkRate(f.faceVisible, n.times)
    requires p == Advance(s.posture, f.now, c.posture == Bad, PostureProlongedThresholdSec)
    requires b == Advance(s.lowBlink, f.now, IsLowRate(rate), LowBlinkProlongedThresholdSec)
    ensures FrameStep(s, f) == Outcome(State(n.counter, n.times, s.capacity, c.history, p.streak, b.streak),
                                       PostureEvent(p.edge) + BlinkEvent(b.edge, rate))
  {
  }

  /** The loop of `main_backend`, with the variables it updates from frame to frame. */
  class MonitorLoop {
    var frameCounter: nat
    var blinkTimes: seq<real>
    const maxLen: nat
    var badHistory: seq<real>
    var postureBadSince: Option<real>
    var postureProlongedActive: bool
    var lowBlinkSince: Option<real>
    var lowBlinkProlongedActive: bool

    ghost predicate Valid()
      reads this
    {
      |badHistory| <= maxLen
    }

    ghost function Current(): State
      reads this
    {
      State(frameCounter, blinkTimes, maxLen, badHistory,
            Streak(postureBadSince, postureProlongedActive),
            Streak(lowBlinkSince, lowBlinkProlongedActive))
    }

    /** The set-up before the loop: fps fallback, history bound, seeded blink window. */
    constructor (startTime: real, fps: real)
      ensures Valid() && Current() == Init(startTime, fps)
    {
      var rate := fps;
      if rate <= 0.0 || rate > MaxFps {
        rate := DefaultFps;
      }
      maxLen := (rate * HistoryWindowSec).Floor;
      badHistory := [];
      frameCounter := 0;
      blinkTimes := seq(BlinkSeedCount, _ => startTime);
      postureBadSince, postureProlongedActive := None, false;
      lowBlinkSince, lowBlinkProlongedActive := None, false;
    }

    /** Process one camera frame; returns the events broadcast for it, in order. */
    method Step(obs: Observation) returns (events: seq<Event>)
      requires Valid()
      modifies this
      ensures Valid()
      ensures Outcome(Current(), events) == FrameStep(old(Current()), Score(obs))
    {
      ghost var before := Current();
      var score := None;
      if obs.pose.Some? {
        score := Some(BadPostureScore(obs.pose.value));
      }
      var f := Frame(obs.now, score, obs.faceVisible, obs.eyesClosed);
      var posture := ProcessPosture(score);
      ghost var c := Classified(badHistory, posture);
      var blinkRate := ProcessBlinks(f);
      ghost var window := blinkTimes;
      var postureEvents := TrackPosture(f.now, posture);
      ghost var p := Advance(before.posture, f.now, posture == Bad, PostureProlongedThresholdSec);
      var blinkEvents := TrackLowBlink(f.now, f.faceVisible, blinkRate);
      ghost var b := Advance(before.lowBlink, f.now, IsLowRate(blinkRate), LowBlinkProlongedThresholdSec);
      events := postureEvents + blinkEvents;
      FrameStepParts(before, f, c, Counted(frameCounter, window), blinkRate, p, b);
    }

    /** Posture processing: push the score into the bounded history and classify the frame. */
    method ProcessPosture(score: Option<real>) returns (posture: Posture)
      requires Valid()
      modifies this`badHistory
      ensures Valid()
      ensures Classified(badHistory, posture) == ClassifyPosture(old(badHistory), maxLen, score)
    {
      posture := Unknown;
      if score.Some? {
        badHistory := badHistory + [score.value];
        if |badHistory| > maxLen {
          badHistory := badHistory[1..];
        }
        posture := SmoothedPosture(badHistory);
      }
    }

    /** Blink processing: the closed-eye counter, then the cleanup of the 60 s window. */
    method ProcessBlinks(f: Frame) returns (blinkRate: Option<nat>)
      modifies this`frameCounter, this`blinkTimes
      ensures var n := CountFrame(old(frameCounter), old(blinkTimes), f);
              frameCounter == n.counter && blinkTimes == DropExpired(n.times, f.now)
      ensures blinkRate == BlinkRate(f.faceVisible, blinkTimes)
    {
      if f.faceVisible {
        if f.eyesClosed {
          frameCounter := frameCounter + 1;
        } else {
          if frameCounter >= EarConsecFrames {
            blinkTimes := blinkTimes + [f.now];
          }
          frameCounter := 0;
        }
      }

      ghost var appended := blinkTimes;
      while blinkTimes != [] && f.now - blinkTimes[0] > BlinkWindowSec
        invariant DropExpired(blinkTimes, f.now) == DropExpired(appended, f.now)
        modifies this`blinkTimes
        decreases |blinkTimes|
      {
        blinkTimes := blinkTimes[1..];
      }

      blinkRate := None;
      if f.faceVisible {
        blinkRate := Some(|blinkTimes|);
      }
    }

    /** The prolonged-bad-posture machine; "good" and "unknown" both break the streak. */
    method TrackPosture(now: real, posture: Posture) returns (events: seq<Event>)
      modifies this`postureBadSince, this`postureProlongedActive
      ensures var t := Advance(old(Streak(postureBadSince, postureProlongedActive)), now,
                               posture == Bad, PostureProlongedThresholdSec);
              Streak(postureBadSince, postureProlongedActive) == t.streak && events == PostureEvent(t.edge)
    {
      events := [];
      if posture == Bad {
        if postureBadSince.None? {
          postureBadSince := Some(now);
        }
        var badDuration := now - postureBadSince.value;
        if !postureProlongedActive && badDuration >= PostureProlongedThresholdSec {
          postureProlongedActive := true;
          events := [PostureWarning(Trunc(badDuration))];
        }
      } else {
        if postureProlongedActive {
          postureProlongedActive := false;
          postureBadSince := None;
          events := [PostureResolved];
        } else {
          postureBadSince := None;
        }
      }
    }

    /** The prolonged-low-blink-rate machine; reasons about fatigue only with a visible face. */
    method TrackLowBlink(now: real, faceVisible: bool, blinkRate: Option<nat>) returns (events: seq<Event>)
      requires blinkRate.Some? <==> faceVisible
      modifies this`lowBlinkSince, this`lowBlinkProlongedActive
      ensures var t := Advance(old(Streak(lowBlinkSince, lowBlinkProlongedActive)), now,
                               IsLowRate(blinkRate), LowBlinkProlongedThresholdSec);
              Streak(lowBlinkSince, lowBlinkProlongedActive) == t.streak && events == BlinkEvent(t.edge, blinkRate)
    {
      events := [];
      if faceVisible && blinkRate.Some? {
        if blinkRate.value < LowBlinkRateThreshold {
          if lowBlinkSince.None? {
            lowBlinkSince := Some(now);
          }
          var lowDuration := now - lowBlinkSince.value;
          if !lowBlinkProlongedActive && lowDuration >= LowBlinkProlongedThresholdSec {
            lowBlinkProlongedActive := true;
            events := [BlinkWarning(blinkRate.value, Trunc(lowDuration))];
          }
        } else {
          if lowBlinkProlongedActive {
            lowBlinkProlongedActive := false;
            lowBlinkSince := None;
            events := [BlinkResolved(BackToNormal, blinkRate)];
          } else {
            lowBlinkSince := None;
          }
        }
      } else {
        if lowBlinkProlongedActive {
          lowBlinkProlongedActive := false;
          lowBlinkSince := None;
          events := [BlinkResolved(FaceNotVisible, None)];
        } else {
          lowBlinkSince := None;
        }
      }
    }
  }
}
