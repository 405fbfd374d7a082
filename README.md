# Wellness-App: a verified model of the monitoring loop and the session controls

Wellness-App watches a user at their desk through the camera. The Python
backend runs a loop over camera frames. The loop scores the user's posture
and counts blinks. It broadcasts websocket warnings when bad posture or a low
blink rate lasts too long, and it broadcasts a resolve when the condition ends.
The React frontend starts and stops a session, keeps the latest posture and
blink warnings in a store, builds toast payloads, and turns per-range posture
statistics into chart descriptions.

This project models that logic in Dafny and proves properties of it.

- `posture_score.dfy` (`PostureScore`) models `compute_bad_posture_score` over
  `real`. It has the piecewise-linear normaliser `NormBad`, the weighted sum
  and the clip to [0, 1].
- `monitor.dfy` (`Monitor`) models one iteration of the `main_backend` loop as
  the pure function `FrameStep`. The class `MonitorLoop` holds the loop's
  variables. They are the frame counter, the blink-timestamp deque, the
  bounded `bad_history` deque and the two "since"/"active" pairs. Its `Step`
  method updates them in place and is proved to agree with `FrameStep`. An
  observation carries the posture measurements (absent when no pose
  landmarks were found), the face-visible flag, the "eye aspect ratio below
  0.23" flag and the time. `Step` scores the measurements with
  `compute_bad_posture_score`, and `FrameStep` works on the scored frame.
- `monitor_properties.dfy` (`MonitorProperties`) proves facts about whole
  runs of the loop. Each channel's events alternate warning/resolve,
  starting with a warning. A warning is sent only after its condition held
  on every frame for at least the threshold. If the clock never runs
  backwards, the blink window holds only timestamps from the last 60 s.
- `session.dfy` (`Session`) models the `useSession` hook. The class
  `SessionHook` holds the hook's state and refs and is proved against pure
  step functions. The results of the two remote calls are parameters.
  Lemmas cover every sequence of user actions.
- `session_toggles.dfy` (`SessionToggles`) models the three-flag toggle
  logic of `SessionTogglePanel` and `StartSessionCard`, and how the card
  gates its buttons.
- `persistent_notifications.dfy` (`PersistentNotifications`) models the
  two-slot persistent store, its setters and the guard against use outside
  the provider.
- `notification_builders.dfy` (`NotificationBuilders`) models the
  `useNotification` payload builders.
- `analytics_types.dfy`, `posture_types.dfy` and `analytics_card.dfy` model
  `convertPostureMetricsToAnalyticsMetric` and `defaultGetXAxisLabels`.
- `optional.dfy` holds `Option` and `Result`.

### Behaviour worth knowing

- A failed remote stop leaves the session active, with its socket ref and
  session id.
- Stopping does not touch the persistent notification store; both slots keep
  their last notification.
- `toggleSession` has no in-flight guard. Only the start button's `disabled`
  attribute blocks a second click while a call is loading.
- The socket ref is never assigned, because the `connectWebSocket` call is
  commented out. No event stream reaches the stores.
- A stop without a session id is not a caller error. It is reported through
  `error` as "No active session".
- The hook stores the `sessionId` field of the start reply. Both shown
  backends reply `{"status": ...}` without that field (backend/main.py:51,
  backend/app/main.py:49). So after a successful start against them the id
  ref is `undefined`, and `Session.StuckWithoutSessionId` shows that the
  session can then never be stopped.

## Model

| member | source | states |
|---|---|---|
| PostureScore.Clip | backend/src/posture_engine.py:107 | the clipped value lies in [lo, hi] and equals x when x is already inside |
| PostureScore.NormBad | backend/src/posture_engine.py:87-93 | the badness of any measurement lies in [0, 1] |
| PostureScore.NormBadRegions | backend/src/posture_engine.py:89-93 | 0 at or below good_max, 1 at or above bad_max, and strictly between them exactly (x - good_max)/(bad_max - good_max) |
| PostureScore.InteriorBetween | backend/src/posture_engine.py:93 | the linear part lies strictly between 0 and 1 |
| PostureScore.NormBadMonotone | backend/src/posture_engine.py:87-93 | norm_bad never decreases as x grows |
| PostureScore.BadPostureScore | backend/src/posture_engine.py:80-107 | the returned score is in [0, 1] |
| PostureScore.ScoreIsNeckBadness | backend/src/posture_engine.py:101-106 | with weights (0, 1, 0, 0) the score equals the neck badness |
| PostureScore.ScoreIgnoresOtherMeasurements | backend/src/posture_engine.py:101-106 | back angle, head-forward distance and shoulder tilt do not affect the score |
| PostureScore.ScoreSignSymmetric | backend/src/posture_engine.py:83-97 | flipping the sign of head-forward or shoulder tilt leaves the score unchanged |
| PostureScore.ScoreMonotoneInNeck | backend/src/posture_engine.py:96-107 | a larger neck angle never lowers the score |
| Monitor.Trunc | backend/src/monitor.py:259 | Python `int()` of a float: the integer within 1 of x on the side of zero |
| Monitor.EffectiveFps | backend/src/monitor.py:153-155 | a reported rate at or below 0 or above 120 is replaced by 30; otherwise it is kept |
| Monitor.HistoryCapacity | backend/src/monitor.py:157-158 | `maxlen` is int(fps * 3) of the effective rate, so never more than 360 |
| Monitor.Score | backend/src/monitor.py:198-206 | a frame with landmarks gets a badness score in [0, 1], a frame without them gets none; time, face and eye flags pass through |
| Monitor.BoundedAppend | backend/src/monitor.py:208 | appending to the bounded deque keeps the last `maxlen` elements of history + [score] |
| Monitor.SmoothedPosture | backend/src/monitor.py:209-210 | "bad" exactly when the history is non-empty and its mean exceeds 0.67, "good" otherwise (an empty mean is NaN) |
| Monitor.CountBlink | backend/src/monitor.py:227-233 | a closed-eye frame increments the counter; an open-eye frame resets it to 0, and appends `now` exactly when the counter had reached 2 |
| Monitor.DropExpired | backend/src/monitor.py:235-237 | the cleanup never grows the deque, and what it keeps starts with a timestamp at most 60 s older than now |
| Monitor.DropExpiredSuffix | backend/src/monitor.py:235-237 | the cleanup keeps a suffix of the deque in order, its first element is at most 60 s old, and every dropped one was older |
| Monitor.Advance | backend/src/monitor.py:243-274 | one prolonged-state machine: the streak starts at the first holding frame, a warning fires once when it has lasted the threshold and only while inactive, a non-holding frame resets the streak and resolves exactly when active |
| Monitor.BlinkRate | backend/src/monitor.py:239-241 | the rate is the window's size when the face is visible and None otherwise |
| Monitor.ClassifyPosture | backend/src/monitor.py:197-212 | "unknown" exactly when there are no landmarks, and then the history is untouched; otherwise the score becomes the newest history entry (for a positive bound), the history grows by at most one up to its bound, and the class is the smoothed one |
| Monitor.FrameStep | backend/src/monitor.py:181-322 | one iteration keeps the history's bound, and a frame without landmarks leaves the history as it was; the rest of its behaviour is stated by `MonitorLoop.Step` and the `MonitorProperties` lemmas |
| Monitor.Init | backend/src/monitor.py:161-179 | 15 blink timestamps equal to the start time, empty history with the fps-derived bound, counter 0, both machines idle |
| Monitor.MonitorLoop.constructor | backend/src/monitor.py:153-179 | the loop variables start as `Init` describes, with the fps fallback done in place |
| Monitor.MonitorLoop.Step | backend/src/monitor.py:181-322 | one iteration scores the observation, then updates the loop variables and returns the broadcast events exactly as `FrameStep` specifies for the scored frame, keeping the history within its bound |
| Monitor.MonitorLoop.ProcessPosture | backend/src/monitor.py:197-212 | appends the frame's score to the bounded history in place and classifies the frame; no landmarks (no score) gives "unknown" and leaves the history alone |
| Monitor.MonitorLoop.ProcessBlinks | backend/src/monitor.py:214-241 | the counter and deque after the blink logic and the popleft loop, and the rate computed from the cleaned deque |
| Monitor.MonitorLoop.TrackPosture | backend/src/monitor.py:243-274 | the posture since/active pair and the posture events follow `Advance` |
| Monitor.MonitorLoop.TrackLowBlink | backend/src/monitor.py:276-319 | the low-blink since/active pair and the blink events follow `Advance`, with back_to_normal carrying the rate and face_not_visible carrying none |
| MonitorProperties.FrameChannel | backend/src/monitor.py:243-319 | each frame drives each channel by exactly one step of its machine |
| MonitorProperties.EdgeFlips | backend/src/monitor.py:245-319 | one machine step emits at most one event on its channel: a warning exactly when the flag turns on, a resolve exactly when it turns off |
| MonitorProperties.FrameChannelFlips | backend/src/monitor.py:251-319 | per frame a channel emits at most one event: a warning exactly when its flag turns on, a resolve exactly when it turns off |
| MonitorProperties.EventsAlternate | backend/src/monitor.py:243-319 | over any run from an inactive flag, a channel's events alternate warning/resolved starting with a warning, and the flag is active exactly after a warning |
| MonitorProperties.PostureEventsAlternate | backend/src/monitor.py:245-274 | from the loop's start, posture events are posture_warning at even and posture_resolved at odd positions |
| MonitorProperties.RunStreak | backend/src/monitor.py:243-319 | along a run, each channel's since/active pair is its machine driven by that channel's per-frame condition |
| MonitorProperties.StreakStartHeld | backend/src/monitor.py:246-247 | a streak's start time is the time of a frame from which the condition held on every frame up to the latest |
| MonitorProperties.RiseOnlyAfterHeld | backend/src/monitor.py:249-252 | a warning edge carries the time since some frame from which the condition held on every frame, and that time is at least the threshold |
| MonitorProperties.FrameWarningIsRise | backend/src/monitor.py:251-259 | a warning a frame broadcasts on a channel is that channel's warning edge, carrying int() of the edge's duration |
| MonitorProperties.WarningOnlyAfterProlongedStreak | backend/src/monitor.py:245-294 | a posture_warning or blink_warning is sent only after bad posture, or a visible face with a rate under 8, held on every frame for at least 2 s, and it carries int() of exactly that duration |
| MonitorProperties.DropExpiredWindow | backend/src/monitor.py:235-237 | cleaning a sorted deque of past timestamps leaves a sorted deque with every timestamp within 60 s of now |
| MonitorProperties.WindowStep | backend/src/monitor.py:227-237 | with no timestamp later than now, one frame leaves the deque sorted and within the last 60 s |
| MonitorProperties.WindowRun | backend/src/monitor.py:236-237 | over a run with non-decreasing times, the deque after the last frame is sorted and within 60 s of it |
| MonitorProperties.InitWindow | backend/src/monitor.py:164 | from the 15 seeded timestamps, every run starting at or after start-up keeps the deque within the last 60 s |
| MonitorProperties.BlinkRateIsWindowSize | backend/src/monitor.py:239-241 | the rate a frame computes is the size of the cleaned deque when the face is visible, None otherwise |
| MonitorProperties.HistoryBounded | backend/src/monitor.py:208 | a frame never grows `bad_history` past its bound |
| MonitorProperties.HistoryHoldsScores | backend/src/monitor.py:206-208 | after a scored observation, every history entry is still a badness score in [0, 1] |
| Session.ErrorText | frontend/src/hooks/useSession.ts:56 | an `Error`'s own message, otherwise the fallback text |
| Session.Start | frontend/src/hooks/useSession.ts:20-61 | success stores the reply's id and makes the session active with the current config; failure keeps state and id and sets the error text; loading is off on exit |
| Session.Stop | frontend/src/hooks/useSession.ts:63-91 | with no truthy id: "No active session" and nothing else changes; on success the state becomes inactive, the id and socket ref are cleared and the open socket is closed; on failure all three are kept and the error is set; loading is off on exit |
| Session.ConfigChange | frontend/src/hooks/useSession.ts:93-97 | the config becomes the new one only while no session is active, and nothing else changes |
| Session.Toggle | frontend/src/hooks/useSession.ts:99-105 | loading ends off and the config is unchanged; the session switches between active and inactive exactly when the call succeeds (a stop also needs a truthy id), and the error is cleared exactly then |
| Session.ApplySettled | frontend/src/hooks/useSession.ts:93-105 | a toggle or config change keeps: not loading, no socket, no id while inactive, an active session's config equal to the shown config |
| Session.ReachableSettled | frontend/src/hooks/useSession.ts:7-105 | the same holds after every sequence of toggles and config changes |
| Session.InitialSettled | frontend/src/hooks/useSession.ts:7-18 | initially inactive with posture on and eye strain and distractions off |
| Session.StuckWithoutSessionId | frontend/src/hooks/useSession.ts:68-70 | an active session with a falsy id stays active, with the same start time and config, whatever the user does |
| Session.StopWithoutSessionIdFails | frontend/src/hooks/useSession.ts:68-70 | each toggle of such a session reports "No active session" |
| Session.StartStopRoundTrip | frontend/src/hooks/useSession.ts:20-91 | a successful start then a successful stop returns the hook to where it was, with the error cleared |
| Session.FailedStopKeepsSession | frontend/src/hooks/useSession.ts:73-86 | a failed remote stop keeps the session active with its id and socket ref, and sets the error |
| Session.SessionHook.constructor | frontend/src/hooks/useSession.ts:7-18 | the hook starts in the initial state |
| Session.SessionHook.BeginRequest | frontend/src/hooks/useSession.ts:22-23 | entering a remote call sets loading and clears the error |
| Session.SessionHook.StartSession | frontend/src/hooks/useSession.ts:20-61 | the fields after the call are those of `Start` |
| Session.SessionHook.StopSession | frontend/src/hooks/useSession.ts:63-91 | the fields after the call, and the socket closed, are those of `Stop` |
| Session.SessionHook.HandleConfigChange | frontend/src/hooks/useSession.ts:93-97 | the config changes only while no session is active |
| Session.SessionHook.ToggleSession | frontend/src/hooks/useSession.ts:99-105 | stop when active, start otherwise |
| SessionToggles.Flip | frontend/src/components/Home/SessionTogglePanel.tsx:26-35 | toggling a key negates that flag and leaves the other two unchanged |
| SessionToggles.FlipTwice | frontend/src/components/Home/SessionTogglePanel.tsx:26-35 | toggling the same key twice restores the flags |
| SessionToggles.FlipCommutes | frontend/src/components/Home/SessionTogglePanel.tsx:26-35 | toggles of two keys give the same flags in either order |
| SessionToggles.TogglePanel.constructor | frontend/src/components/Home/SessionTogglePanel.tsx:17-19 | the flags start as posture on, eye strain and distractions off |
| SessionToggles.TogglePanel.HandleToggle | frontend/src/components/Home/SessionTogglePanel.tsx:21-38 | when disabled nothing changes and `onToggle` is not called; otherwise the flag is flipped and `onToggle`, if given, gets the new flags |
| SessionToggles.StartSessionCard.constructor | frontend/src/components/Home/StartSessionCard.tsx:19-23 | a fresh session hook in its initial state and local flags posture on, the others off |
| SessionToggles.StartSessionCard.HandleToggle | frontend/src/components/Home/StartSessionCard.tsx:25-42 | the same toggle logic on the local flags; the session's config and state are untouched |
| SessionToggles.StartSessionCard.ClickToggle | frontend/src/components/Home/StartSessionCard.tsx:69-71 | the toggle buttons do nothing while the session is active; otherwise the click behaves as the card's `HandleToggle`: nothing when disabled, else the flag is flipped and `onToggle`, if given, gets the new flags |
| SessionToggles.StartSessionCard.ClickStart | frontend/src/components/Home/StartSessionButton.tsx:19 | the start button toggles the session unless a call is loading |
| PersistentNotifications.Write | frontend/src/context/PersistentNotificationContext.tsx:28-31 | each setter overwrites its own slot with the given value, null included, without checking its kind, and leaves the other slot alone |
| PersistentNotifications.LastWriteWins | frontend/src/context/PersistentNotificationContext.tsx:28-40 | after any sequence of setter calls each slot holds its own last write, or its old value if never written |
| PersistentNotifications.PersistentNotificationStore.constructor | frontend/src/context/PersistentNotificationContext.tsx:28-31 | both slots start empty |
| PersistentNotifications.PersistentNotificationStore.SetPostureNotification | frontend/src/context/PersistentNotificationContext.tsx:28-29 | the posture slot becomes the argument; the blink slot is unchanged |
| PersistentNotifications.PersistentNotificationStore.SetBlinkNotification | frontend/src/context/PersistentNotificationContext.tsx:30-31 | the blink slot becomes the argument; the posture slot is unchanged |
| PersistentNotifications.UsePersistentNotifications | frontend/src/context/PersistentNotificationContext.tsx:47-55 | fails with the "must be used within PersistentNotificationProvider" message exactly when there is no provider, and otherwise returns the context value |
| NotificationBuilders.PostureCheck | frontend/src/hooks/useNotification.ts:13-20 | title "Posture check!", type posture, the given body and score, no timestamp, duration 5000 ms |
| NotificationBuilders.EyeStrain | frontend/src/hooks/useNotification.ts:22-29 | title "Take a break!", type eye-strain, the given body and score, no timestamp, duration 5000 ms |
| NotificationBuilders.Focus | frontend/src/hooks/useNotification.ts:31-38 | title "Focus", type focus, the given body and score, no timestamp, duration 5000 ms |
| NotificationBuilders.Custom | frontend/src/hooks/useNotification.ts:40-41 | the payload is passed through unchanged |
| AnalyticsTypes.RangeName | frontend/src/types/analytics.types.ts:4 | each range has a non-empty key |
| AnalyticsTypes.RangeNameInjective | frontend/src/types/analytics.types.ts:4 | different ranges have different keys |
| PostureTypes.RangeData | frontend/src/types/posture.types.ts:35-61 | a range's entry: the range's average score, then a line chart of degradationData ("Score", grid) with id "posture-degradation-" and the range, then a bar chart of eyeFixData ("Minutes", no grid) with id "eye-fix-" and the range, each with the matching descriptionValue |
| PostureTypes.Convert | frontend/src/types/posture.types.ts:29-149 | averageScore is the week's; there is an entry for exactly the four ranges, each built from that range's own statistics |
| PostureTypes.ChartIdSpelling | frontend/src/types/posture.types.ts:39-135 | chart 0 of a range has id "posture-degradation-" followed by the range's key, chart 1 "eye-fix-" followed by it |
| PostureTypes.ChartIdsDistinct | frontend/src/types/posture.types.ts:39-135 | the eight chart ids are pairwise distinct |
| AnalyticsCard.Decimal | frontend/src/components/Analytics/AnalyticsCard.tsx:30 | a number prints as a non-empty string of decimal digits |
| AnalyticsCard.DecimalRoundTrip | frontend/src/components/Analytics/AnalyticsCard.tsx:30 | reading the printed digits back gives the number |
| AnalyticsCard.DecimalInjective | frontend/src/components/Analytics/AnalyticsCard.tsx:30 | different numbers print differently |
| AnalyticsCard.DefaultXAxisLabels | frontend/src/components/Analytics/AnalyticsCard.tsx:27-53 | "day": one label per point, label i is 2i followed by "h"; "month": "Day " followed by i+1; "week": Mon to Sun; "year": Jan to Dec; any other range: none; a negative length gives no labels |
| AnalyticsCard.HourLabelInjective | frontend/src/components/Analytics/AnalyticsCard.tsx:30 | different points get different hour labels |
| AnalyticsCard.DayLabelInjective | frontend/src/components/Analytics/AnalyticsCard.tsx:34 | different points get different day labels |
| AnalyticsCard.LabelsDistinct | frontend/src/components/Analytics/AnalyticsCard.tsx:27-53 | no two labels on an axis are equal, for every range and length |

## Left out

- Camera and vision: `cap.read`, `pose.process`, `face_mesh.process` and the drawing calls are foreign libraries. A frame's measurements and eye flag are inputs, and a failed `cap.read` (the loop's `continue`) is simply no frame.
- Float geometry: `compute_posture_metrics`, `compute_EAR`, `angle_with_vertical` and `euclidean_distance` use numpy trigonometry and norms. Their results arrive as inputs, and all arithmetic is over exact reals, so float rounding and NaN inputs are not modelled.
- `run_combined_monitor`, `posture_engine.main`, `run_posture_monitor` and `blink_engine.py` are older camera loops with other thresholds. Only `main_backend` is modelled.
- The clock: `time.time()` is a frame's `now`. The window lemmas assume it never runs backwards; the loop itself makes no such check, and its `Step` needs no such assumption.
- `wait_for_unpause`, `asyncio.sleep` and the `broadcast` calls are I/O. Events are returned in broadcast order instead of being sent.
- The backend servers (`backend/main.py`, `backend/app/main.py`) and `backend/src/utils.py` are network fan-out, threads and async polling.
- `sessionService.ts`: `fetch` and the WebSocket are I/O. Their outcomes are the `StartReply`/`StopReply` parameters, and the thrown `Error` is `Failure`.
- Interleaving at the `await`s: each hook call is modelled as running to completion. `Session.SessionHook.BeginRequest` shows the state at the await point, but overlapping calls are not modelled. So `SessionToggles.StartSessionCard.ClickStart`'s loading guard never blocks anything in this model.
- `SessionState.startTime` is a `Date`; it is the integer `now` parameter.
- React rendering, re-render timing of `useState` setters and `useCallback` closures: state updates take effect at once. The handlers read the values of the render they were created in, which in a sequential model are the current ones.
- The transient notification store (`NotificationContext.tsx`) is not part of this model, since no source for it is shown. So the builders return the payload handed to `addNotification`, not the id it returns.
- No shown code routes websocket events into notifications, so no such routing is modelled.
- Notification rendering, charts, view components and static sample data are presentation only.
- `AnalyticsCard.DefaultXAxisLabels`: `Array.from` with a non-integer or NaN length is not modelled; the length is an integer.
