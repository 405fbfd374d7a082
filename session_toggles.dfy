/**
 * The three monitoring toggles (posture, eye strain, distractions) of the
 * home page: `SessionTogglePanel`, and `StartSessionCard`, which repeats the
 * same toggle logic next to the start/stop button of a `useSession` hook.
 */
module SessionToggles {
  import opened Optional
  import opened Session

  datatype ToggleKey = PostureKey | EyeStrainKey | DistractionsKey

  function Flag(c: SessionConfig, k: ToggleKey): bool
  {
    match k
    case PostureKey => c.posture
    case EyeStrainKey => c.eyeStrain
    case DistractionsKey => c.distractions
  }

  /** One toggle: negate the flag of `k`. */
  function Flip(c: SessionConfig, k: ToggleKey): (r: SessionConfig)
    ensures Flag(r, k) == !Flag(c, k)
    ensures forall k' :: k' != k ==> Flag(r, k') == Flag(c, k')
  {
    match k
    case PostureKey => c.(posture := !c.posture)
    case EyeStrainKey => c.(eyeStrain := !c.eyeStrain)
    case DistractionsKey => c.(distractions := !c.distractions)
  }

  /** A configuration is determined by its three flags. */
  lemma FlagsDetermineConfig(c: SessionConfig, d: SessionConfig)
    requires forall k :: Flag(c, k) == Flag(d, k)
    ensures c == d
  {
    assert Flag(c, PostureKey) == Flag(d, PostureKey);
    assert Flag(c, EyeStrainKey) == Flag(d, EyeStrainKey);
    assert Flag(c, DistractionsKey) == Flag(d, DistractionsKey);
  }

  /** Toggling the same key twice restores the flags. */
  lemma FlipTwice(c: SessionConfig, k: ToggleKey)
    ensures Flip(Flip(c, k), k) == c
  {
    FlagsDetermineConfig(Flip(Flip(c, k), k), c);
  }

  /** Toggles of different keys do not interfere: their order does not matter. */
  lemma FlipCommutes(c: SessionConfig, j: ToggleKey, k: ToggleKey)
    ensures Flip(Flip(c, j), k) == Flip(Flip(c, k), j)
  {
    FlagsDetermineConfig(Flip(Flip(c, j), k), Flip(Flip(c, k), j));
  }

  /** `SessionTogglePanel`: three local flags, a `disabled` prop and an optional `onToggle` callback. */
  class TogglePanel {
    var posture: bool
    var eyeStrain: bool
    var distractions: bool
    const disabled: bool
    const hasOnToggle: bool

    function Flags(): SessionConfig
      reads this
    {
      SessionConfig(posture, eyeStrain, distractions)
    }

    constructor(disabled: bool, hasOnToggle: bool)
      ensures Flags() == DefaultConfig
      ensures this.disabled == disabled && this.hasOnToggle == hasOnToggle
    {
      posture := true;
      eyeStrain := false;
      distractions := false;
      this.disabled := disabled;
      this.hasOnToggle := hasOnToggle;
    }

    /** Returns what `onToggle` was called with, if it was called. */
    method HandleToggle(key: ToggleKey) returns (notified: Option<SessionConfig>)
      modifies this
      ensures disabled ==> Flags() == old(Flags()) && notified == None
      ensures !disabled ==> Flags() == Flip(old(Flags()), key)
      ensures !disabled ==> notified == if hasOnToggle then Some(Flags()) else None
    {
      if disabled {
        return None;
      }
      var newState := SessionConfig(posture, eyeStrain, distractions);
      if key == PostureKey {
        newState := newState.(posture := !posture);
        posture := !posture;
      } else if key == EyeStrainKey {
        newState := newState.(eyeStrain := !eyeStrain);
        eyeStrain := !eyeStrain;
      } else if key == DistractionsKey {
        newState := newState.(distractions := !distractions);
        distractions := !distractions;
      }
      notified := if hasOnToggle then Some(newState) else None;
    }
  }

  /**
   * `StartSessionCard`: its own `useSession` hook, its own three flags, and
   * the start/stop button.
   */
  class StartSessionCard {
    const session: SessionHook
    var posture: bool
    var eyeStrain: bool
    var distractions: bool
    const disabled: bool
    const hasOnToggle: bool

    function Flags(): SessionConfig
      reads this
    {
      SessionConfig(posture, eyeStrain, distractions)
    }

    constructor(disabled: bool, hasOnToggle: bool)
      ensures Flags() == DefaultConfig && session.Model() == Initial && fresh(session)
      ensures this.disabled == disabled && this.hasOnToggle == hasOnToggle
    {
      session := new SessionHook();
      posture := true;
      eyeStrain := false;
      distractions := false;
      this.disabled := disabled;
      this.hasOnToggle := hasOnToggle;
    }

    /**
     * The card's copy of the toggle logic. It only changes the local flags:
     * the session's configuration is left as it was.
     */
    method HandleToggle(key: ToggleKey) returns (notified: Option<SessionConfig>)
      modifies this
      ensures disabled ==> Flags() == old(Flags()) && notified == None
      ensures !disabled ==> Flags() == Flip(old(Flags()), key)
      ensures !disabled ==> notified == if hasOnToggle then Some(Flags()) else None
      ensures session.Model() == old(session.Model())
    {
      if disabled {
        return None;
      }
      var newState := SessionConfig(posture, eyeStrain, distractions);
      if key == PostureKey {
        newState := newState.(posture := !posture);
        posture := !posture;
      } else if key == EyeStrainKey {
        newState := newState.(eyeStrain := !eyeStrain);
        eyeStrain := !eyeStrain;
      } else if key == DistractionsKey {
        newState := newState.(distractions := !distractions);
        distractions := !distractions;
      }
      notified := if hasOnToggle then Some(newState) else None;
    }

    /** A click on a toggle button, which is disabled while the session is active. */
    method ClickToggle(key: ToggleKey) returns (notified: Option<SessionConfig>)
      modifies this
      ensures old(session.sessionState).Active? ==> Flags() == old(Flags()) && notified == None
      ensures !old(session.sessionState).Active? && disabled ==> Flags() == old(Flags()) && notified == None
      ensures !old(session.sessionState).Active? && !disabled ==> Flags() == Flip(old(Flags()), key)
      ensures !old(session.sessionState).Active? && !disabled ==> notified == if hasOnToggle then Some(Flags()) else None
      ensures session.Model() == old(session.Model())
    {
      if session.sessionState.Active? {
        return None;
      }
      notified := HandleToggle(key);
    }

    /** A click on the start/stop button, which is disabled while a call is loading. */
    method ClickStart(startReply: StartReply, stopReply: StopReply, now: int)
      modifies session
      ensures session.Model() ==
        if old(session.isLoading) then old(session.Model())
        else Toggle(old(session.Model()), startReply, stopReply, now)
    {
      if !session.isLoading {
        session.ToggleSession(startReply, stopReply, now);
      }
    }
  }
}
