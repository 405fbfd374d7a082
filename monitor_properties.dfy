/**
 * Properties of the `main_backend` loop over whole runs of frames: the
 * events of each prolonged-state machine alternate warning/resolved starting
 * with a warning, a warning fires only after the condition has held
 * continuously for the threshold, and with a clock that does not run
 * backwards the blink window holds only timestamps from the last 60 s.
 */
module MonitorProperties {
  import opened Optional
  import opened Monitor

  /** The two prolonged-state machines. */
  datatype Channel = PostureChannel | BlinkChannel

  predicate OnChannel(e: Event, c: Channel)
  {
    if c == PostureChannel then e.PostureWarning? || e.PostureResolved? else e.BlinkWarning? || e.BlinkResolved?
  }

  predicate IsWarning(e: Event)
  {
    e.PostureWarning? || e.BlinkWarning?
  }

  /** The duration (whole seconds) a warning carries. */
  function WarningDuration(e: Event): int
    requires IsWarning(e)
  {
    if e.PostureWarning? then e.badDurationSec else e.lowDurationSec
  }

  function Threshold(c: Channel): real
  {
    if c == PostureChannel then PostureProlongedThresholdSec else LowBlinkProlongedThresholdSec
  }

  function ChannelStreak(s: State, c: Channel): Streak
  {
    if c == PostureChannel then s.posture else s.lowBlink
  }

  /** The events of one channel, in broadcast order. */
  function ChannelEvents(evs: seq<Event>, c: Channel): (r: seq<Event>)
    ensures forall i :: 0 <= i < |r| ==> OnChannel(r[i], c)
    decreases |evs|
  {
    if evs == [] then []
    else ChannelEvents(evs[..|evs| - 1], c) + (if OnChannel(evs[|evs| - 1], c) then [evs[|evs| - 1]] else [])
  }

  lemma {:induction false} ChannelEventsAppend(a: seq<Event>, b: seq<Event>, c: Channel)
    ensures ChannelEvents(a + b, c) == ChannelEvents(a, c) + ChannelEvents(b, c)
    decreases |b|
  {
    if b == [] {
      assert a + b == a;
    } else {
      var b' := b[..|b| - 1];
      assert (a + b)[..|a + b| - 1] == a + b';
      assert (a + b)[|a + b| - 1] == b[|b| - 1];
      ChannelEventsAppend(a, b', c);
    }
  }

  lemma ChannelEventsSingle(x: Event, c: Channel)
    ensures ChannelEvents([x], c) == if OnChannel(x, c) then [x] else []
  {
    assert [x][..0] == [];
  }

  /** Warnings at the even positions, resolves at the odd ones. */
  predicate Alternating(evs: seq<Event>)
  {
    forall i :: 0 <= i < |evs| ==> IsWarning(evs[i]) == (i % 2 == 0)
  }

  /** The blink rate a frame computes, from the state before it. */
  function FrameRate(s: State, f: Frame): Option<nat>
  {
    BlinkRate(f.faceVisible, DropExpired(CountFrame(s.frameCounter, s.blinkTimes, f).times, f.now))
  }

  /** Whether a frame continues a channel's streak: bad posture, or a low blink rate. */
  predicate Holding(s: State, f: Frame, c: Channel)
  {
    if c == PostureChannel then ClassifyPosture(s.badHistory, s.capacity, f.poseScore).posture == Bad
    else IsLowRate(FrameRate(s, f))
  }

  function ChannelEvent(c: Channel, e: Option<Edge>, rate: Option<nat>): seq<Event>
  {
    if c == PostureChannel then PostureEvent(e) else BlinkEvent(e, rate)
  }

  /** One frame step in terms of the two machines' steps. */
  lemma FrameStepShape(s: State, f: Frame)
    ensures var p := Advance(s.posture, f.now, Holding(s, f, PostureChannel), PostureProlongedThresholdSec);
      var b := Advance(s.lowBlink, f.now, Holding(s, f, BlinkChannel), LowBlinkProlongedThresholdSec);
      && FrameStep(s, f).next.blinkTimes == DropExpired(CountFrame(s.frameCounter, s.blinkTimes, f).times, f.now)
      && FrameStep(s, f).next.posture == p.streak
      && FrameStep(s, f).next.lowBlink == b.streak
      && FrameStep(s, f).events == PostureEvent(p.edge) + BlinkEvent(b.edge, FrameRate(s, f))
  {
  }

  /** The posture machine's events belong to the posture channel only. */
  lemma PostureEventChannels(pe: Option<Edge>, c: Channel)
    ensures ChannelEvents(PostureEvent(pe), c) == if c == PostureChannel then PostureEvent(pe) else []
  {
    if pe.Some? { ChannelEventsSingle(PostureEvent(pe)[0], c); }
  }

  /** The low-blink machine's events belong to the blink channel only. */
  lemma BlinkEventChannels(be: Option<Edge>, rate: Option<nat>, c: Channel)
    ensures ChannelEvents(BlinkEvent(be, rate), c) == if c == BlinkChannel then BlinkEvent(be, rate) else []
  {
    var bs := BlinkEvent(be, rate);
    if bs != [] {
      assert bs == [bs[0]];
      ChannelEventsSingle(bs[0], c);
    }
  }

  /** Filtering a frame's events by channel keeps that channel's machine's event only. */
  lemma EdgeEvents(pe: Option<Edge>, be: Option<Edge>, rate: Option<nat>, c: Channel)
    ensures ChannelEvents(PostureEvent(pe) + BlinkEvent(be, rate), c)
      == ChannelEvent(c, if c == PostureChannel then pe else be, rate)
  {
    ChannelEventsAppend(PostureEvent(pe), BlinkEvent(be, rate), c);
    PostureEventChannels(pe, c);
    BlinkEventChannels(be, rate, c);
  }

  /** A frame drives each channel by exactly one step of its hysteresis machine. */
  lemma FrameChannel(s: State, f: Frame, c: Channel)
    ensures var t := Advance(ChannelStreak(s, c), f.now, Holding(s, f, c), Threshold(c));
      && ChannelStreak(FrameStep(s, f).next, c) == t.streak
      && ChannelEvents(FrameStep(s, f).events, c) == ChannelEvent(c, t.edge, FrameRate(s, f))
  {
    var p := Advance(s.posture, f.now, Holding(s, f, PostureChannel), PostureProlongedThresholdSec);
    var b := Advance(s.lowBlink, f.now, Holding(s, f, BlinkChannel), LowBlinkProlongedThresholdSec);
    FrameStepShape(s, f);
    EdgeEvents(p.edge, b.edge, FrameRate(s, f), c);
  }

  /**
   * One machine step emits at most one event on its channel: a warning exactly
   * when the flag goes from inactive to active, a resolve exactly when it goes back.
   */
  lemma EdgeFlips(st: Streak, now: real, holding: bool, threshold: real, c: Channel, rate: Option<nat>)
    requires c == BlinkChannel && holding ==> rate.Some?
    ensures var t := Advance(st, now, holding, threshold);
      var ce := ChannelEvent(c, t.edge, rate);
      && |ce| <= 1
      && (ce == [] <==> t.streak.active == st.active)
      && (ce != [] ==> IsWarning(ce[0]) == !st.active)
  {
  }

  /** Within one frame a channel emits at most one event, exactly when its flag flips. */
  lemma FrameChannelFlips(s: State, f: Frame, c: Channel)
    ensures var ce := ChannelEvents(FrameStep(s, f).events, c);
      var before, after := ChannelStreak(s, c).active, ChannelStreak(FrameStep(s, f).next, c).active;
      && |ce| <= 1
      && (ce == [] <==> after == before)
      && (ce != [] ==> IsWarning(ce[0]) == !before)
  {
    FrameChannel(s, f, c);
    EdgeFlips(ChannelStreak(s, c), f.now, Holding(s, f, c), Threshold(c), c, FrameRate(s, f));
  }

  /** The loop run over a sequence of frames, with all the events it broadcasts. */
  function Run(s: State, fs: seq<Frame>): Outcome
    decreases |fs|
  {
    if fs == [] then Outcome(s, [])
    else
      var o := Run(s, fs[..|fs| - 1]);
      var st := FrameStep(o.next, fs[|fs| - 1]);
      Outcome(st.next, o.events + st.events)
  }

  /**
   * Each channel's events strictly alternate warning/resolved, starting with a
   * warning; the flag is active exactly when the last event was a warning.
   */
  lemma {:induction false} EventsAlternate(s: State, fs: seq<Frame>, c: Channel)
    requires !ChannelStreak(s, c).active
    ensures var o := Run(s, fs);
      var ce := ChannelEvents(o.events, c);
      Alternating(ce) && ChannelStreak(o.next, c).active == (|ce| % 2 == 1)
    decreases |fs|
  {
    if fs != [] {
      var prefix := fs[..|fs| - 1];
      var o := Run(s, prefix);
      var st := FrameStep(o.next, fs[|fs| - 1]);
      assert Run(s, fs) == Outcome(st.next, o.events + st.events);
      EventsAlternate(s, prefix, c);
      FrameChannelFlips(o.next, fs[|fs| - 1], c);
      AlternatingStep(o.events, st.events, c, ChannelStreak(o.next, c).active, ChannelStreak(st.next, c).active);
    }
  }

  /**
   * Appending one step's events to an alternating history, where the step
   * emits an event on the channel exactly when the flag flips, keeps it
   * alternating and keeps the flag equal to the parity of the event count.
   */
  lemma AlternatingStep(a: seq<Event>, b: seq<Event>, c: Channel, before: bool, after: bool)
    requires Alternating(ChannelEvents(a, c)) && before == (|ChannelEvents(a, c)| % 2 == 1)
    requires var cb := ChannelEvents(b, c);
      && |cb| <= 1
      && (cb == [] <==> after == before)
      && (cb != [] ==> IsWarning(cb[0]) == !before)
    ensures Alternating(ChannelEvents(a + b, c)) && after == (|ChannelEvents(a + b, c)| % 2 == 1)
  {
    ChannelEventsAppend(a, b, c);
    AlternatingExtend(ChannelEvents(a, c), ChannelEvents(b, c));
  }

  lemma AlternatingExtend(a: seq<Event>, b: seq<Event>)
    requires Alternating(a) && |b| <= 1
    requires b != [] ==> IsWarning(b[0]) == (|a| % 2 == 0)
    ensures Alternating(a + b)
    ensures |a + b| % 2 == 1 <==> (if b == [] then |a| % 2 == 1 else IsWarning(b[0]))
  {
  }

  /** Posture events alternate, starting with `posture_warning`, from the loop's initial state. */
  lemma PostureEventsAlternate(startTime: real, fps: real, fs: seq<Frame>)
    ensures var pe := ChannelEvents(Run(Init(startTime, fps), fs).events, PostureChannel);
      forall i :: 0 <= i < |pe| ==> (pe[i].PostureWarning? <==> i % 2 == 0) && (pe[i].PostureResolved? <==> i % 2 == 1)
  {
    EventsAlternate(Init(startTime, fps), fs, PostureChannel);
  }

  /**
   * A hysteresis machine driven by a run of frames: frame i contributes its
   * time and `hs[i]`, whether the condition held on it.
   */
  function StreakRun(st: Streak, fs: seq<Frame>, hs: seq<bool>, threshold: real): Streak
    requires |hs| == |fs|
    decreases |fs|
  {
    if fs == [] then st
    else
      var n := |fs| - 1;
      Advance(StreakRun(st, fs[..n], hs[..n], threshold), fs[n].now, hs[n], threshold).streak
  }

  /** A channel's condition along a run: whether it held on each frame, given the state before it. */
  function Holdings(s: State, fs: seq<Frame>, c: Channel): (r: seq<bool>)
    ensures |r| == |fs|
    decreases |fs|
  {
    if fs == [] then []
    else
      var prefix := fs[..|fs| - 1];
      Holdings(s, prefix, c) + [Holding(Run(s, prefix).next, fs[|fs| - 1], c)]
  }

  /** The flags of a run are those of its prefix, then the last frame's own. */
  lemma HoldingsSnoc(s: State, fs: seq<Frame>, c: Channel)
    requires fs != []
    ensures var prefix := fs[..|fs| - 1];
      && Holdings(s, fs, c)[..|fs| - 1] == Holdings(s, prefix, c)
      && Holdings(s, fs, c)[|fs| - 1] == Holding(Run(s, prefix).next, fs[|fs| - 1], c)
  {
  }

  /** Along a run, a channel's streak is its hysteresis machine driven by that channel's flags. */
  lemma {:induction false} RunStreak(s: State, fs: seq<Frame>, c: Channel)
    ensures ChannelStreak(Run(s, fs).next, c) == StreakRun(ChannelStreak(s, c), fs, Holdings(s, fs, c), Threshold(c))
    decreases |fs|
  {
    if fs != [] {
      var prefix := fs[..|fs| - 1];
      RunStreak(s, prefix, c);
      FrameChannel(Run(s, prefix).next, fs[|fs| - 1], c);
      HoldingsSnoc(s, fs, c);
    }
  }

  /**
   * A streak's start time is the time of a frame from which the condition has
   * held without a break up to the latest frame.
   */
  lemma {:induction false} StreakStartHeld(st: Streak, fs: seq<Frame>, hs: seq<bool>, threshold: real)
    requires st.since.None? && |hs| == |fs|
    ensures var r := StreakRun(st, fs, hs, threshold);
      r.since.Some? ==>
        exists k :: 0 <= k < |fs| && fs[k].now == r.since.value && forall j :: k <= j < |fs| ==> hs[j]
    decreases |fs|
  {
    if fs != [] {
      var n := |fs| - 1;
      StreakStartHeld(st, fs[..n], hs[..n], threshold);
      var before := StreakRun(st, fs[..n], hs[..n], threshold);
      if hs[n] && before.since.Some? {
        var k :| 0 <= k < n && fs[..n][k].now == before.since.value &&
          forall j :: k <= j < n ==> hs[..n][j];
        assert fs[k].now == before.since.value;
        assert forall j :: k <= j < |fs| ==> hs[j] by {
          forall j | k <= j < |fs|
            ensures hs[j]
          {
            if j < n { assert hs[j] == hs[..n][j]; }
          }
        }
      } else if hs[n] {
        assert fs[n].now == StreakRun(st, fs, hs, threshold).since.value;
      }
    }
  }

  /**
   * On flags alone: a `Rise(d)` fires only when the condition has held on
   * every frame since some frame k, and `d` is the time elapsed since frame k,
   * which is at least the threshold (so `int(d)` is `int()` of that time).
   */
  lemma RiseOnlyAfterHeld(st: Streak, fs: seq<Frame>, hs: seq<bool>, threshold: real, d: real)
    requires st.since.None? && |hs| == |fs| && fs != []
    requires var n := |fs| - 1;
      Advance(StreakRun(st, fs[..n], hs[..n], threshold), fs[n].now, hs[n], threshold).edge == Some(Rise(d))
    ensures exists k ::
      && 0 <= k < |fs|
      && (forall j :: k <= j < |fs| ==> hs[j])
      && d == fs[|fs| - 1].now - fs[k].now >= threshold
      && Trunc(d) == Trunc(fs[|fs| - 1].now - fs[k].now)
  {
    var n := |fs| - 1;
    var before := StreakRun(st, fs[..n], hs[..n], threshold);
    StreakStartHeld(st, fs[..n], hs[..n], threshold);
    var k: int;
    if before.since.Some? {
      k :| 0 <= k < n && fs[..n][k].now == before.since.value &&
        forall j :: k <= j < n ==> hs[..n][j];
      assert fs[k].now == before.since.value;
    } else {
      k := n;
    }
    assert forall j :: k <= j < |fs| ==> hs[j] by {
      forall j | k <= j < |fs|
        ensures hs[j]
      {
        if j < n { assert hs[j] == hs[..n][j]; }
      }
    }
  }

  /** The warning a channel's machine emits is its `Rise`, with `int()` of the duration. */
  lemma WarningIsRise(c: Channel, edge: Option<Edge>, rate: Option<nat>, e: Event)
    requires e in ChannelEvent(c, edge, rate) && IsWarning(e)
    ensures edge.Some? && edge.value.Rise? && WarningDuration(e) == Trunc(edge.value.duration)
  {
  }

  /** A warning a frame broadcasts on a channel is that channel's `Rise` for the frame. */
  lemma FrameWarningIsRise(o: State, f: Frame, c: Channel, e: Event)
    requires e in ChannelEvents(FrameStep(o, f).events, c) && IsWarning(e)
    ensures var t := Advance(ChannelStreak(o, c), f.now, Holding(o, f, c), Threshold(c));
      t.edge.Some? && t.edge.value.Rise? && WarningDuration(e) == Trunc(t.edge.value.duration)
  {
    var t := Advance(ChannelStreak(o, c), f.now, Holding(o, f, c), Threshold(c));
    FrameChannel(o, f, c);
    WarningIsRise(c, t.edge, FrameRate(o, f), e);
  }

  /**
   * A warning is broadcast only once its condition (bad posture, or a visible
   * face with a blink rate under 8) has held on every frame since some frame k,
   * for at least the threshold; it carries `int()` of exactly that duration.
   */
  lemma WarningOnlyAfterProlongedStreak(s: State, fs: seq<Frame>, c: Channel, e: Event)
    requires fs != [] && ChannelStreak(s, c).since.None?
    requires e in ChannelEvents(FrameStep(Run(s, fs[..|fs| - 1]).next, fs[|fs| - 1]).events, c) && IsWarning(e)
    ensures exists k ::
      && 0 <= k < |fs|
      && (forall j :: k <= j < |fs| ==> Holdings(s, fs, c)[j])
      && fs[|fs| - 1].now - fs[k].now >= Threshold(c)
      && WarningDuration(e) == Trunc(fs[|fs| - 1].now - fs[k].now)
  {
    var n := |fs| - 1;
    var hs := Holdings(s, fs, c);
    var o := Run(s, fs[..n]).next;
    RunStreak(s, fs[..n], c);
    HoldingsSnoc(s, fs, c);
    FrameWarningIsRise(o, fs[n], c, e);
    var t := Advance(ChannelStreak(o, c), fs[n].now, Holding(o, fs[n], c), Threshold(c));
    RiseOnlyAfterHeld(ChannelStreak(s, c), fs, hs, Threshold(c), t.edge.value.duration);
  }

  predicate Sorted(ts: seq<real>)
  {
    forall i, j :: 0 <= i < j < |ts| ==> ts[i] <= ts[j]
  }

  /** Every timestamp is at most `now` and at most 60 s older than it. */
  predicate InWindow(ts: seq<real>, now: real)
  {
    forall i :: 0 <= i < |ts| ==> now - BlinkWindowSec <= ts[i] <= now
  }

  /** Cleaning a sorted list of past timestamps leaves a sorted window of the last 60 s. */
  lemma DropExpiredWindow(times: seq<real>, now: real)
    requires Sorted(times) && forall i :: 0 <= i < |times| ==> times[i] <= now
    ensures Sorted(DropExpired(times, now)) && InWindow(DropExpired(times, now), now)
  {
    DropExpiredSuffix(times, now);
    var r := DropExpired(times, now);
    var d := |times| - |r|;
    forall i | 0 <= i < |r|
      ensures now - BlinkWindowSec <= r[i] <= now
    {
      assert r[i] == times[d + i] && r[0] == times[d];
    }
    forall i, j | 0 <= i < j < |r|
      ensures r[i] <= r[j]
    {
      assert r[i] == times[d + i] && r[j] == times[d + j];
    }
  }

  /** With a clock that has not run backwards, one frame leaves a sorted window of the last 60 s. */
  lemma WindowStep(s: State, f: Frame)
    requires Sorted(s.blinkTimes)
    requires forall i :: 0 <= i < |s.blinkTimes| ==> s.blinkTimes[i] <= f.now
    ensures Sorted(FrameStep(s, f).next.blinkTimes) && InWindow(FrameStep(s, f).next.blinkTimes, f.now)
  {
    var appended := CountFrame(s.frameCounter, s.blinkTimes, f).times;
    assert appended == s.blinkTimes || appended == s.blinkTimes + [f.now];
    assert Sorted(appended) && forall i :: 0 <= i < |appended| ==> appended[i] <= f.now;
    FrameStepShape(s, f);
    DropExpiredWindow(appended, f.now);
  }

  predicate Chronological(fs: seq<Frame>)
  {
    forall i, j :: 0 <= i < j < |fs| ==> fs[i].now <= fs[j].now
  }

  /**
   * From the initial window (15 copies of the start time), with frames in
   * time order that start no earlier than the start time, the window after
   * every frame is sorted and holds only timestamps from the last 60 s.
   */
  lemma {:induction false} WindowRun(s: State, fs: seq<Frame>)
    requires fs != [] && Chronological(fs) && Sorted(s.blinkTimes)
    requires forall i :: 0 <= i < |s.blinkTimes| ==> s.blinkTimes[i] <= fs[0].now
    ensures Sorted(Run(s, fs).next.blinkTimes) && InWindow(Run(s, fs).next.blinkTimes, fs[|fs| - 1].now)
    decreases |fs|
  {
    var prefix := fs[..|fs| - 1];
    var o := Run(s, prefix);
    if prefix != [] {
      WindowRun(s, prefix);
      assert prefix[|prefix| - 1].now <= fs[|fs| - 1].now;
    }
    WindowStep(o.next, fs[|fs| - 1]);
  }

  /** The loop's own start: the seeded window is sorted, so `WindowRun` applies to every run. */
  lemma InitWindow(startTime: real, fps: real, fs: seq<Frame>)
    requires fs != [] && Chronological(fs) && startTime <= fs[0].now
    ensures InWindow(Run(Init(startTime, fps), fs).next.blinkTimes, fs[|fs| - 1].now)
  {
    WindowRun(Init(startTime, fps), fs);
  }

  /** `blink_rate` is the window's size with a visible face and `None` without one. */
  lemma BlinkRateIsWindowSize(s: State, f: Frame)
    ensures FrameRate(s, f) == if f.faceVisible then Some(|FrameStep(s, f).next.blinkTimes|) else None
  {
  }

  /** A frame never grows `bad_history` past its bound. */
  lemma HistoryBounded(s: State, f: Frame)
    requires |s.badHistory| <= s.capacity
    ensures |FrameStep(s, f).next.badHistory| <= FrameStep(s, f).next.capacity == s.capacity
  {
  }

  predicate ScoresInUnitRange(h: seq<real>)
  {
    forall i :: 0 <= i < |h| ==> 0.0 <= h[i] <= 1.0
  }

  /** Appending a score in [0, 1] to the bounded history keeps every entry in [0, 1]. */
  lemma BoundedAppendScores(h: seq<real>, cap: nat, x: real)
    requires ScoresInUnitRange(h) && 0.0 <= x <= 1.0
    ensures ScoresInUnitRange(BoundedAppend(h, cap, x))
  {
    var ext := h + [x];
    var r := BoundedAppend(h, cap, x);
    assert ScoresInUnitRange(ext);
    forall i | 0 <= i < |r|
      ensures 0.0 <= r[i] <= 1.0
    {
      assert r[i] == ext[|ext| - |r| + i];
    }
  }

  /** The history holds badness scores only, each in [0, 1]. */
  lemma HistoryHoldsScores(s: State, obs: Observation)
    requires ScoresInUnitRange(s.badHistory)
    ensures ScoresInUnitRange(FrameStep(s, Score(obs)).next.badHistory)
  {
    var f := Score(obs);
    var c := ClassifyPosture(s.badHistory, s.capacity, f.poseScore);
    assert FrameStep(s, f).next.badHistory == c.history;
    if f.poseScore.Some? {
      BoundedAppendScores(s.badHistory, s.capacity, f.poseScore.value);
    }
  }
}
