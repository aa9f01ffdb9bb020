/** Values shared by every part of the collaborative hide-and-seek session. */
module Types {

  datatype Option<+T> = None | Some(value: T)

  /** A point in the shared world coordinates (the translation column of an anchor transform). */
  datatype Position = Position(x: real, y: real, z: real)

  /** A transport-level peer handle; opaque, only compared for equality. */
  datatype PeerId = PeerId(handle: nat)

  /**
   * An anchor of the shared map. `name` is absent for participant anchors;
   * `sessionId` is the identifier (as a UUID string) of the AR session that
   * created it, absent when the map does not know it.
   */
  datatype Anchor = Anchor(name: Option<string>, sessionId: Option<string>, position: Position)

  /** The placeable objects. */
  datatype Chord = CMajor | FMajor | GMajor | AMinor

  /** The string each chord is known by; it is the name of the anchor that marks it. */
  function RawValue(c: Chord): string
  {
    match c
    case CMajor => "C Major"
    case FMajor => "F Major"
    case GMajor => "G Major"
    case AMinor => "A Minor"
  }

  /** Distinct chords carry distinct names, so an anchor name identifies its chord. */
  lemma RawValueInjective(c: Chord, d: Chord)
    ensures RawValue(c) == RawValue(d) ==> c == d
  {
  }

  datatype Role = Hider | Seeker

  /** The priority ARKit attaches to each piece of collaboration data. */
  datatype Priority = Critical | Optional

  /** A synchronisation payload produced by the AR session; its content is opaque. */
  datatype CollaborationData = CollaborationData(content: seq<bv8>, priority: Priority)
}
