/**
 * What travels between peers and how an incoming message is told apart:
 * collaboration data first, then an identity announcement, else nothing.
 */
module Relay {
  import opened Types
  import opened Framing

  /** What is handed to the transport: an archived collaboration payload or UTF-8 text. */
  datatype Payload = Archived(data: CollaborationData) | Utf8(text: string)

  /** One call to the transport's send, with its delivery mode and recipients. */
  datatype Outgoing = Outgoing(payload: Payload, reliably: bool, to: seq<PeerId>)

  /**
   * Received bytes, seen through the two decoding attempts the receiver makes:
   * unarchiving them as collaboration data, and reading them as UTF-8 text.
   */
  datatype Received = Received(asCollaboration: Option<CollaborationData>, asUtf8: Option<string>)

  /** What the receiver makes of a message. */
  datatype Message = SyncData(data: CollaborationData) | Announcement(sessionId: string) | Ignored

  /** The bytes of a payload as the receiving side decodes them. */
  function Wire(p: Payload): Received
  {
    match p
    case Archived(d) => Received(Some(d), None)
    case Utf8(t) => Received(None, Some(t))
  }

  /** The receive dispatch: collaboration data is tried first and wins. */
  function Classify(r: Received): (m: Message)
    ensures m.SyncData? <==> r.asCollaboration.Some?
    ensures r.asCollaboration.Some? ==> m == SyncData(r.asCollaboration.value)
    ensures r.asCollaboration.None? && r.asUtf8.Some? && StartsWith(r.asUtf8.value, SessionIdCommand) ==>
              m == Announcement(r.asUtf8.value[|SessionIdCommand|..])
    ensures m.Announcement? ==>
              r.asCollaboration.None? && r.asUtf8.Some? &&
              r.asUtf8.value == EncodeAnnouncement(m.sessionId)
    ensures m.Ignored? <==>
              r.asCollaboration.None? &&
              (r.asUtf8.None? || !StartsWith(r.asUtf8.value, SessionIdCommand))
  {
    if r.asCollaboration.Some? then
      SyncData(r.asCollaboration.value)
    else if r.asUtf8.Some? && DecodeAnnouncement(r.asUtf8.value).Some? then
      Announcement(DecodeAnnouncement(r.asUtf8.value).value)
    else
      Ignored
  }

  /** An announcement as sent is received as the announcement of the same identifier. */
  lemma AnnouncementDelivered(id: string)
    ensures Classify(Wire(Utf8(EncodeAnnouncement(id)))) == Announcement(id)
  {
    RoundTrip(id);
  }

  /** Collaboration data as sent is received as that same data, never as an announcement. */
  lemma ArchivedDelivered(d: CollaborationData)
    ensures Classify(Wire(Archived(d))) == SyncData(d)
  {
  }

  /** Collaboration data goes reliably exactly when ARKit marks it critical. */
  function SendsReliably(priority: Priority): (reliably: bool)
    ensures reliably <==> priority == Critical
  {
    match priority
    case Critical => true
    case Optional => false
  }
}
