/**
 * The convenience builders of `useNotification`: each builds the payload it
 * hands to the transient store's `addNotification`. The payload has no `id`;
 * the store assigns one.
 */
module NotificationBuilders {
  import opened Optional

  datatype NotificationType = PostureType | EyeStrainType | FocusType | DefaultType

  /** A notification without its `id`; `duration` is in milliseconds, 0 meaning "never dismiss". */
  datatype NotificationDraft = NotificationDraft(
    title: string,
    body: string,
    score: Option<real>,
    kind: Option<NotificationType>,
    timestamp: Option<int>,
    duration: Option<int>)

  const ConvenienceDurationMs := 5000

  /** A payload the store removes by itself after its duration. */
  predicate AutoDismissing(d: NotificationDraft)
  {
    d.duration.Some? && d.duration.value != 0
  }

  /** The shape shared by the three convenience builders. */
  function Convenience(title: string, kind: NotificationType, body: string, score: real): NotificationDraft
  {
    NotificationDraft(title, body, Some(score), Some(kind), None, Some(ConvenienceDurationMs))
  }

  function PostureCheck(body: string, score: real): (d: NotificationDraft)
    ensures d.title == "Posture check!" && d.kind == Some(PostureType)
    ensures d.body == body && d.score == Some(score) && d.timestamp == None
    ensures d.duration == Some(ConvenienceDurationMs) && AutoDismissing(d)
  {
    Convenience("Posture check!", PostureType, body, score)
  }

  function EyeStrain(body: string, score: real): (d: NotificationDraft)
    ensures d.title == "Take a break!" && d.kind == Some(EyeStrainType)
    ensures d.body == body && d.score == Some(score) && d.timestamp == None
    ensures d.duration == Some(ConvenienceDurationMs) && AutoDismissing(d)
  {
    Convenience("Take a break!", EyeStrainType, body, score)
  }

  function Focus(body: string, score: real): (d: NotificationDraft)
    ensures d.title == "Focus" && d.kind == Some(FocusType)
    ensures d.body == body && d.score == Some(score) && d.timestamp == None
    ensures d.duration == Some(ConvenienceDurationMs) && AutoDismissing(d)
  {
    Convenience("Focus", FocusType, body, score)
  }

  /** `custom`: the caller's payload, passed through as is. */
  function Custom(n: NotificationDraft): (d: NotificationDraft)
    ensures d == n
  {
    n
  }
}
