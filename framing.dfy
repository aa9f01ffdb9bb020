/**
 * The identity-announcement text message: a fixed command prefix followed by
 * the sender's AR session identifier.
 */
module Framing {
  import opened Types

  const SessionIdCommand: string := "SessionID:"

  predicate StartsWith(s: string, prefix: string)
  {
    |prefix| <= |s| && s[..|prefix|] == prefix
  }

  /** The announcement a peer sends so that others can attribute its anchors. */
  function EncodeAnnouncement(id: string): (command: string)
    ensures StartsWith(command, SessionIdCommand)
    ensures |command| == |SessionIdCommand| + |id|
  {
    SessionIdCommand + id
  }

  /** Strips the command prefix; text without it is not an announcement. */
  function DecodeAnnouncement(text: string): (id: Option<string>)
    ensures id.Some? <==> StartsWith(text, SessionIdCommand)
    ensures id.Some? ==> EncodeAnnouncement(id.value) == text
  {
    if StartsWith(text, SessionIdCommand) then
      assert SessionIdCommand + text[|SessionIdCommand|..] == text;
      Some(text[|SessionIdCommand|..])
    else
      None
  }

  /** Decoding an encoded announcement yields exactly the identifier that was sent. */
  lemma RoundTrip(id: string)
    ensures DecodeAnnouncement(EncodeAnnouncement(id)) == Some(id)
  {
    var command := EncodeAnnouncement(id);
    assert command[|SessionIdCommand|..] == id;
  }

  /** Distinct identifiers are announced by distinct messages. */
  lemma EncodeInjective(id1: string, id2: string)
    ensures EncodeAnnouncement(id1) == EncodeAnnouncement(id2) ==> id1 == id2
  {
    if EncodeAnnouncement(id1) == EncodeAnnouncement(id2) {
      RoundTrip(id1);
      RoundTrip(id2);
    }
  }
}
