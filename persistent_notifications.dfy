/**
 * The persistent notification store: one slot for the current posture
 * notification and one for the current blink notification, each changed only
 * through its overwrite setter, and the guard that refuses to read the store
 * outside its provider.
 */
module PersistentNotifications {
  import opened Optional

  datatype PersistentKind = PostureKind | BlinkKind

  datatype PersistentNotification = PersistentNotification(
    id: string,
    kind: PersistentKind,
    title: string,
    body: string,
    score: Option<real>)

  /** The two slots; `None` is `null`. A slot holds at most one notification by construction. */
  datatype Slots = Slots(posture: Option<PersistentNotification>, blink: Option<PersistentNotification>)

  const EmptySlots := Slots(None, None)

  /** A call of one of the two setters. Neither checks the notification's kind. */
  datatype SlotWrite =
    | SetPosture(notification: Option<PersistentNotification>)
    | SetBlink(notification: Option<PersistentNotification>)

  function Write(s: Slots, w: SlotWrite): (r: Slots)
    ensures w.SetPosture? ==> r.posture == w.notification && r.blink == s.blink
    ensures w.SetBlink? ==> r.blink == w.notification && r.posture == s.posture
  {
    match w
    case SetPosture(n) => s.(posture := n)
    case SetBlink(n) => s.(blink := n)
  }

  function WriteAll(s: Slots, ws: seq<SlotWrite>): Slots
    decreases |ws|
  {
    if ws == [] then s else WriteAll(Write(s, ws[0]), ws[1..])
  }

  /** The value of the last write to the posture slot, if there is one. */
  function LastPostureWrite(ws: seq<SlotWrite>): Option<Option<PersistentNotification>>
    decreases |ws|
  {
    if ws == [] then None
    else if ws[|ws| - 1].SetPosture? then Some(ws[|ws| - 1].notification)
    else LastPostureWrite(ws[..|ws| - 1])
  }

  /** The value of the last write to the blink slot, if there is one. */
  function LastBlinkWrite(ws: seq<SlotWrite>): Option<Option<PersistentNotification>>
    decreases |ws|
  {
    if ws == [] then None
    else if ws[|ws| - 1].SetBlink? then Some(ws[|ws| - 1].notification)
    else LastBlinkWrite(ws[..|ws| - 1])
  }

  lemma {:induction false} WriteAllSnoc(s: Slots, ws: seq<SlotWrite>, w: SlotWrite)
    ensures WriteAll(s, ws + [w]) == Write(WriteAll(s, ws), w)
    decreases |ws|
  {
    if ws != [] {
      assert (ws + [w])[1..] == ws[1..] + [w];
      WriteAllSnoc(Write(s, ws[0]), ws[1..], w);
    }
  }

  /**
   * Last write wins, slot by slot: after any sequence of setter calls each
   * slot holds the value of its own last write, or its old value if it was
   * never written; writes to one slot never affect the other.
   */
  lemma {:induction false} LastWriteWins(s: Slots, ws: seq<SlotWrite>)
    ensures WriteAll(s, ws).posture == if LastPostureWrite(ws).Some? then LastPostureWrite(ws).value else s.posture
    ensures WriteAll(s, ws).blink == if LastBlinkWrite(ws).Some? then LastBlinkWrite(ws).value else s.blink
    decreases |ws|
  {
    if ws != [] {
      var prefix, w := ws[..|ws| - 1], ws[|ws| - 1];
      assert ws == prefix + [w];
      WriteAllSnoc(s, prefix, w);
      LastWriteWins(s, prefix);
    }
  }

  /** What the provider puts in the context. */
  class PersistentNotificationStore {
    var postureNotification: Option<PersistentNotification>
    var blinkNotification: Option<PersistentNotification>

    function Current(): Slots
      reads this
    {
      Slots(postureNotification, blinkNotification)
    }

    constructor()
      ensures Current() == EmptySlots
    {
      postureNotification := None;
      blinkNotification := None;
    }

    method SetPostureNotification(notification: Option<PersistentNotification>)
      modifies this`postureNotification
      ensures Current() == Write(old(Current()), SetPosture(notification))
    {
      postureNotification := notification;
    }

    method SetBlinkNotification(notification: Option<PersistentNotification>)
      modifies this`blinkNotification
      ensures Current() == Write(old(Current()), SetBlink(notification))
    {
      blinkNotification := notification;
    }
  }

  const OutsideProviderMessage := "usePersistentNotifications must be used within PersistentNotificationProvider"

  /** `usePersistentNotifications`: the context value, or the error thrown when there is no provider. */
  function UsePersistentNotifications(context: Option<Slots>): (r: Result<Slots>)
    ensures r.Success? <==> context.Some?
    ensures r.Success? ==> r.value == context.value
    ensures r.Failure? ==> r.message == OutsideProviderMessage
  {
    match context
    case Some(c) => Success(c)
    case None => Failure(OutsideProviderMessage)
  }
}
