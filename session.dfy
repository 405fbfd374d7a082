/**
 * The frontend session controller `useSession`: the session state and
 * configuration, the loading flag, the error text, and the socket and
 * session-id refs. The two remote calls of the session service are given as
 * their outcome; `new Date()` is given as a number.
 */
module Session {
  import opened Optional

  datatype SessionConfig = SessionConfig(posture: bool, eyeStrain: bool, distractions: bool)

  /** posture on, eye strain and distractions off. */
  const DefaultConfig := SessionConfig(true, false, false)

  /** `{isActive: false}` or `{isActive: true, startTime, config}`. */
  datatype SessionState = Inactive | Active(startTime: int, config: SessionConfig)

  /** What a failed call threw: an `Error` (with its message) or anything else. */
  datatype Failure = ErrorWithMessage(message: string) | NonError

  /** Outcome of the remote start; the reply's `sessionId` is absent when the server omits it. */
  datatype StartReply = StartOk(sessionId: Option<string>) | StartFailed(failure: Failure)

  /** Outcome of the remote stop. */
  datatype StopReply = StopOk | StopFailed(failure: Failure)

  /** An open socket, by identity. */
  type SocketHandle = nat

  const StartFailedMessage := "Failed to start session"
  const StopFailedMessage := "Failed to stop session"
  const NoActiveSessionMessage := "No active session"

  /** `err instanceof Error ? err.message : fallback`. */
  function ErrorText(f: Failure, fallback: string): (r: string)
    ensures f.ErrorWithMessage? ==> r == f.message
    ensures f.NonError? ==> r == fallback
  {
    match f
    case ErrorWithMessage(m) => m
    case NonError => fallback
  }

  /** JavaScript truthiness of the session-id ref: `null`, `undefined` and `""` are falsy. */
  predicate Truthy(id: Option<string>)
  {
    id.Some? && id.value != ""
  }

  /** Everything the hook holds. */
  datatype Hook = Hook(
    state: SessionState,
    config: SessionConfig,
    isLoading: bool,
    error: Option<string>,
    ws: Option<SocketHandle>,
    sessionId: Option<string>)

  const Initial := Hook(Inactive, DefaultConfig, false, None, None, None)

  /** `startSession` run to completion. */
  function Start(h: Hook, reply: StartReply, now: int): (r: Hook)
    ensures !r.isLoading && r.config == h.config && r.ws == h.ws
    ensures reply.StartOk? ==>
      r.state == Active(now, h.config) && r.sessionId == reply.sessionId && r.error == None
    ensures reply.StartFailed? ==>
      r.state == h.state && r.sessionId == h.sessionId &&
      r.error == Some(ErrorText(reply.failure, StartFailedMessage))
  {
    match reply
    case StartOk(id) => h.(state := Active(now, h.config), isLoading := false, error := None, sessionId := id)
    case StartFailed(f) => h.(isLoading := false, error := Some(ErrorText(f, StartFailedMessage)))
  }

  datatype Stopped = Stopped(hook: Hook, closed: Option<SocketHandle>)

  /** `stopSession` run to completion, with the socket it closed, if any. */
  function Stop(h: Hook, reply: StopReply): (r: Stopped)
    ensures !r.hook.isLoading && r.hook.config == h.config
    ensures var stopped := Truthy(h.sessionId) && reply.StopOk?;
      if stopped then r.hook.state == Inactive && r.hook.sessionId == None && r.hook.ws == None && r.closed == h.ws
      else r.hook.state == h.state && r.hook.sessionId == h.sessionId && r.hook.ws == h.ws && r.closed == None
    ensures r.hook.error == (
      if !Truthy(h.sessionId) then Some(NoActiveSessionMessage)
      else if reply.StopFailed? then Some(ErrorText(reply.failure, StopFailedMessage))
      else None)
  {
    if !Truthy(h.sessionId) then
      Stopped(h.(isLoading := false, error := Some(NoActiveSessionMessage)), None)
    else
      match reply
      case StopOk => Stopped(h.(state := Inactive, isLoading := false, error := None, ws := None, sessionId := None), h.ws)
      case StopFailed(f) => Stopped(h.(isLoading := false, error := Some(ErrorText(f, StopFailedMessage))), None)
  }

  /** `handleConfigChange`: the configuration can be changed only while no session is active. */
  function ConfigChange(h: Hook, c: SessionConfig): (r: Hook)
    ensures r.config == if h.state.Active? then h.config else c
    ensures r.(config := h.config) == h
  {
    if h.state.Active? then h else h.(config := c)
  }

  /** `toggleSession`: stop when active, start otherwise. */
  function Toggle(h: Hook, startReply: StartReply, stopReply: StopReply, now: int): (r: Hook)
    ensures !r.isLoading && r.config == h.config
    ensures var succeeded := if h.state.Active? then Truthy(h.sessionId) && stopReply.StopOk? else startReply.StartOk?;
      && (r.state.Active? <==> h.state.Active? != succeeded)
      && (r.error.None? <==> succeeded)
  {
    if h.state.Active? then Stop(h, stopReply).hook else Start(h, startReply, now)
  }

  /** What the hook exposes to components: `toggleSession` and `handleConfigChange`. */
  datatype Action =
    | ToggleAction(startReply: StartReply, stopReply: StopReply, now: int)
    | ConfigAction(config: SessionConfig)

  function Apply(h: Hook, a: Action): Hook
  {
    match a
    case ToggleAction(sr, pr, now) => Toggle(h, sr, pr, now)
    case ConfigAction(c) => ConfigChange(h, c)
  }

  function ApplyAll(h: Hook, actions: seq<Action>): Hook
    decreases |actions|
  {
    if actions == [] then h else ApplyAll(Apply(h, actions[0]), actions[1..])
  }

  /**
   * What holds between user actions: nothing is loading, no socket is ever
   * open, an inactive session has no id, and an active session runs with the
   * configuration the hook shows.
   */
  predicate Settled(h: Hook)
  {
    && !h.isLoading
    && h.ws.None?
    && (h.state.Inactive? ==> h.sessionId.None?)
    && (h.state.Active? ==> h.state.config == h.config)
  }

  lemma ApplySettled(h: Hook, a: Action)
    requires Settled(h)
    ensures Settled(Apply(h, a))
  {
  }

  /** Every state reachable from the initial one by user actions is settled. */
  lemma {:induction false} ReachableSettled(h: Hook, actions: seq<Action>)
    requires Settled(h)
    ensures Settled(ApplyAll(h, actions))
    decreases |actions|
  {
    if actions != [] {
      ApplySettled(h, actions[0]);
      ReachableSettled(Apply(h, actions[0]), actions[1..]);
    }
  }

  lemma InitialSettled()
    ensures Settled(Initial) && Initial.state == Inactive && Initial.config == DefaultConfig
  {
  }

  /**
   * An active session whose id ref is falsy (the server's reply had no
   * `sessionId`) can never be stopped: whatever the user does, the session
   * stays active with the same start time and configuration.
   */
  lemma {:induction false} StuckWithoutSessionId(h: Hook, actions: seq<Action>)
    requires h.state.Active? && !Truthy(h.sessionId)
    ensures ApplyAll(h, actions).state == h.state && ApplyAll(h, actions).sessionId == h.sessionId
    decreases |actions|
  {
    if actions != [] {
      StuckWithoutSessionId(Apply(h, actions[0]), actions[1..]);
    }
  }

  /** Each attempt to stop such a session reports "No active session". */
  lemma StopWithoutSessionIdFails(h: Hook, startReply: StartReply, stopReply: StopReply, now: int)
    requires h.state.Active? && !Truthy(h.sessionId)
    ensures Toggle(h, startReply, stopReply, now).error == Some(NoActiveSessionMessage)
  {
  }

  /**
   * A successful start followed by a successful stop returns the hook to
   * where it was, with the error cleared.
   */
  lemma StartStopRoundTrip(h: Hook, id: string, now: int)
    requires Settled(h) && h.state.Inactive? && id != ""
    ensures var started := Toggle(h, StartOk(Some(id)), StopOk, now);
      started.state.Active? && Toggle(started, StartOk(Some(id)), StopOk, now) == h.(error := None)
  {
  }

  /** A failed remote stop leaves the session active, with its id and socket ref. */
  lemma FailedStopKeepsSession(h: Hook, startReply: StartReply, f: Failure, now: int)
    requires h.state.Active? && Truthy(h.sessionId)
    ensures var r := Toggle(h, startReply, StopFailed(f), now);
      r.state == h.state && r.sessionId == h.sessionId && r.ws == h.ws &&
      r.error == Some(ErrorText(f, StopFailedMessage))
  {
  }

  /** The hook itself: React state and refs updated step by step. */
  class SessionHook {
    var sessionState: SessionState
    var sessionConfig: SessionConfig
    var isLoading: bool
    var error: Option<string>
    var ws: Option<SocketHandle>
    var sessionId: Option<string>

    ghost function Model(): Hook
      reads this
    {
      Hook(sessionState, sessionConfig, isLoading, error, ws, sessionId)
    }

    constructor()
      ensures Model() == Initial
    {
      sessionState := Inactive;
      sessionConfig := DefaultConfig;
      isLoading := false;
      error := None;
      ws := None;
      sessionId := None;
    }

    /** Entry to a remote call: loading, with the previous error cleared. */
    method BeginRequest()
      modifies this`isLoading, this`error
      ensures isLoading && error == None
    {
      isLoading := true;
      error := None;
    }

    method StartSession(reply: StartReply, now: int)
      modifies this
      ensures Model() == Start(old(Model()), reply, now)
    {
      BeginRequest();
      match reply {
        case StartOk(id) =>
          sessionId := id;
          sessionState := Active(now, sessionConfig);
        case StartFailed(f) =>
          error := Some(ErrorText(f, StartFailedMessage));
      }
      isLoading := false;
    }

    method StopSession(reply: StopReply) returns (closed: Option<SocketHandle>)
      modifies this
      ensures Stopped(Model(), closed) == Stop(old(Model()), reply)
    {
      BeginRequest();
      closed := None;
      if !Truthy(sessionId) {
        error := Some(NoActiveSessionMessage);
      } else {
        match reply {
          case StopOk =>
            if ws.Some? {
              closed := ws;
              ws := None;
            }
            sessionState := Inactive;
            sessionId := None;
          case StopFailed(f) =>
            error := Some(ErrorText(f, StopFailedMessage));
        }
      }
      isLoading := false;
    }

    method HandleConfigChange(newConfig: SessionConfig)
      modifies this`sessionConfig
      ensures Model() == ConfigChange(old(Model()), newConfig)
    {
      if !sessionState.Active? {
        sessionConfig := newConfig;
      }
    }

    method ToggleSession(startReply: StartReply, stopReply: StopReply, now: int)
      modifies this
      ensures Model() == Toggle(old(Model()), startReply, stopReply, now)
    {
      if sessionState.Active? {
        var _ := StopSession(stopReply);
      } else {
        StartSession(startReply, now);
      }
    }
  }
}
