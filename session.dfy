/**
 * The game-coordination state of the collaborative session's view
 * controller, and the event handlers that change it.
 */
module Session {
  import opened Types
  import opened Framing
  import opened Relay
  import opened Membership
  import opened Ownership
  import opened Placement
  import opened Discovery

  /**
   * What a tap reports to the player: the message or instruction label it
   * sets, except `NothingToFind` (a seeker tap with no chord anchor in the
   * current frame), where the app shows nothing at all.
   */
  datatype TapNotice =
    | NoSurfaceFound
    | ChordPlaced(chord: Chord, next: Option<Chord>)
    | AllPlaced
    | NothingToFind
    | ChordFound(name: string)
    | NothingNearby

  /** The notice a hider tap with outcome `o` reports, given the index after it. */
  function PlacementNotice(o: PlacementOutcome, index: nat): TapNotice
  {
    match o
    case NoSurface => NoSurfaceFound
    case Exhausted => AllPlaced
    case Placed(c, _) => ChordPlaced(c, if index < |Catalog| then Some(Catalog[index]) else None)
  }

  class Coordinator {
    // State the view controller owns.
    var peerSessionIds: map<PeerId, string>
    var placementIndex: nat
    var discovered: seq<Anchor>
    var role: Role

    // State of the collaborators, mirrored here: the AR session's anchors, its
    // identifier and whether it has a current frame; whether the multipeer
    // session exists, its connected peers, what was sent through it; and the
    // collaboration data handed back to the AR session.
    var anchors: seq<Anchor>
    var frameAvailable: bool
    var localSessionId: string
    var transportUp: bool
    var connected: seq<PeerId>
    var sent: seq<Outgoing>
    var applied: seq<CollaborationData>

    /** The placement index stays within the catalog. */
    ghost predicate Valid()
      reads this
    {
      placementIndex <= |Catalog|
    }

    /** The state before the view appears: a seeker with nothing placed, found or known. */
    constructor (sessionId: string)
      ensures Valid()
      ensures peerSessionIds == map[] && placementIndex == 0 && discovered == [] && role == Seeker
      ensures anchors == [] && !frameAvailable && localSessionId == sessionId
      ensures !transportUp && connected == [] && sent == [] && applied == []
    {
      peerSessionIds := map[];
      placementIndex := 0;
      discovered := [];
      role := Seeker;
      anchors := [];
      frameAvailable := false;
      localSessionId := sessionId;
      transportUp := false;
      connected := [];
      sent := [];
      applied := [];
    }

    /**
     * Removes, one by one, every anchor of the current frame created by the
     * AR session `id`; anchors without a session identifier are skipped.
     * Without a current frame nothing is removed.
     */
    method RemoveAllAnchorsFromSession(id: string)
      modifies this`anchors
      ensures anchors == if frameAvailable then Evicted(old(anchors), id) else old(anchors)
      ensures frameAvailable ==> forall a :: a in anchors ==> !FromSession(a, id)
    {
      if !frameAvailable {
        return;
      }
      var snapshot := anchors;
      var k := 0;  // where snapshot[i] now sits in anchors
      for i := 0 to |snapshot|
        invariant k == |Evicted(snapshot[..i], id)|
        invariant anchors == Evicted(snapshot[..i], id) + snapshot[i..]
      {
        EvictedStep(snapshot, i, id);
        assert snapshot[i..] == [snapshot[i]] + snapshot[i + 1..];
        if FromSession(snapshot[i], id) {
          assert anchors[..k] == Evicted(snapshot[..i], id) && anchors[k + 1..] == snapshot[i + 1..];
          anchors := anchors[..k] + anchors[k + 1..];
        } else {
          k := k + 1;
        }
      }
      assert snapshot[..|snapshot|] == snapshot;
      EvictedLeavesNone(snapshot, id);
    }

    /**
     * Data from `peer`: collaboration data is handed to the AR session; an
     * identity announcement first evicts the anchors of the peer's previous
     * session identifier (even when it is the same one), then records the new
     * one; anything else is ignored.
     */
    method ReceivedData(data: Received, peer: PeerId)
      modifies this`peerSessionIds, this`anchors, this`applied
      ensures Classify(data).SyncData? ==>
                && applied == old(applied) + [Classify(data).data]
                && peerSessionIds == old(peerSessionIds)
                && anchors == old(anchors)
      ensures Classify(data).Announcement? ==>
                && applied == old(applied)
                && peerSessionIds == old(peerSessionIds)[peer := Classify(data).sessionId]
                && anchors == (if peer in old(peerSessionIds) && frameAvailable
                               then Evicted(old(anchors), old(peerSessionIds)[peer])
                               else old(anchors))
      ensures Classify(data).Announcement? && peer in old(peerSessionIds) && frameAvailable ==>
                forall a :: a in anchors ==> !FromSession(a, old(peerSessionIds)[peer])
      ensures Classify(data).Ignored? ==> unchanged(this)
    {
      if data.asCollaboration.Some? {
        applied := applied + [data.asCollaboration.value];
        return;
      }
      if data.asUtf8.Some? && StartsWith(data.asUtf8.value, SessionIdCommand) {
        var commandString := data.asUtf8.value;
        var newSessionId := commandString[|SessionIdCommand|..];
        if peer in peerSessionIds {
          RemoveAllAnchorsFromSession(peerSessionIds[peer]);
        }
        peerSessionIds := peerSessionIds[peer := newSessionId];
      }
    }

    /** Whether a newly discovered peer may join: only with a transport, and only while at most three other peers are connected. */
    method PeerDiscovered(peer: PeerId) returns (admit: bool)
      ensures admit <==> transportUp && |connected| <= 3
      ensures admit ==> |connected| + 1 <= MaxConnectedPeers
    {
      if !transportUp {
        return false;
      }
      admit := ShouldAdmit(|connected|);
    }

    /** Announces the local session identifier, reliably, to `peers`. */
    method SendSessionIdTo(peers: seq<PeerId>)
      modifies this`sent
      ensures sent == old(sent) + (if transportUp
                                   then [Outgoing(Utf8(EncodeAnnouncement(localSessionId)), true, peers)]
                                   else [])
    {
      if !transportUp {
        return;
      }
      var command := SessionIdCommand + localSessionId;
      sent := sent + [Outgoing(Utf8(command), true, peers)];
    }

    /** A peer joined: tell it our session identifier so it can attribute our anchors. */
    method PeerJoined(peer: PeerId)
      modifies this`sent
      ensures sent == old(sent) + (if transportUp
                                   then [Outgoing(Utf8(EncodeAnnouncement(localSessionId)), true, [peer])]
                                   else [])
    {
      SendSessionIdTo([peer]);
    }

    /**
     * A peer left: if its session identifier is known, every anchor created by
     * that session is evicted and the entry is dropped; otherwise nothing changes.
     */
    method PeerLeft(peer: PeerId)
      modifies this`peerSessionIds, this`anchors
      ensures peerSessionIds == old(peerSessionIds) - {peer}
      ensures peer !in peerSessionIds
      ensures anchors == (if peer in old(peerSessionIds) && frameAvailable
                          then Evicted(old(anchors), old(peerSessionIds)[peer])
                          else old(anchors))
      ensures peer in old(peerSessionIds) && frameAvailable ==>
                forall a :: a in anchors ==> !FromSession(a, old(peerSessionIds)[peer])
    {
      if peer in peerSessionIds {
        var sessionId := peerSessionIds[peer];
        RemoveAllAnchorsFromSession(sessionId);
        peerSessionIds := peerSessionIds - {peer};
      }
    }

    /**
     * A hider tap: with a surface under the finger and chords left, the next
     * catalog chord is placed at the hit and the index moves on.
     */
    method PlaceChord(hit: Option<Position>) returns (notice: TapNotice)
      requires Valid()
      modifies this`placementIndex, this`anchors
      ensures Valid()
      ensures var o := Place(old(placementIndex), hit, localSessionId);
              && placementIndex == NextIndex(old(placementIndex), o)
              && anchors == old(anchors) + (if o.Placed? then [o.anchor] else [])
              && notice == PlacementNotice(o, placementIndex)
    {
      if hit.Some? {
        if placementIndex < |Catalog| {
          var currentChord := Catalog[placementIndex];
          anchors := anchors + [ChordAnchor(currentChord, hit.value, localSessionId)];
          placementIndex := placementIndex + 1;
          notice := ChordPlaced(currentChord,
                                if placementIndex < |Catalog| then Some(Catalog[placementIndex]) else None);
        } else {
          notice := AllPlaced;
        }
      } else {
        notice := NoSurfaceFound;
      }
    }

    /**
     * A seeker tap: among the chord anchors of the current frame, the first
     * nearest one is discovered if it is within range.
     */
    method FindChord(camera: Position) returns (notice: TapNotice)
      modifies this`discovered
      ensures var candidates := if frameAvailable then Candidates(anchors) else [];
              && (candidates == [] ==> discovered == old(discovered) && notice == NothingToFind)
              && (candidates != [] && MinSq(candidates, camera) < RangeSq ==>
                    && discovered == old(discovered) + [candidates[Nearest(candidates, camera)]]
                    && notice.ChordFound?
                    && candidates[Nearest(candidates, camera)].name == Some(notice.name))
              && (candidates != [] && MinSq(candidates, camera) >= RangeSq ==>
                    discovered == old(discovered) && notice == NothingNearby)
    {
      var candidates := if frameAvailable then Candidates(anchors) else [];
      if candidates == [] {
        return NothingToFind;
      }
      var nearest, minSq := NearestScan(candidates, camera);
      if minSq < RangeSq {
        var found := candidates[nearest];
        assert IsCatalogAnchor(found);
        discovered := discovered + [found];
        notice := ChordFound(found.name.value);
      } else {
        notice := NothingNearby;
      }
    }

    /**
     * A tap. A hider with a surface under the finger places the next catalog
     * chord there; a seeker finds the nearest chord anchor, if one is within range.
     */
    method HandleTap(hit: Option<Position>, camera: Position) returns (notice: TapNotice)
      requires Valid()
      modifies this`placementIndex, this`anchors, this`discovered
      ensures Valid()
      ensures old(placementIndex) <= placementIndex <= old(placementIndex) + 1
      ensures role == Hider ==>
                var o := Place(old(placementIndex), hit, localSessionId);
                && placementIndex == NextIndex(old(placementIndex), o)
                && anchors == old(anchors) + (if o.Placed? then [o.anchor] else [])
                && discovered == old(discovered)
                && notice == PlacementNotice(o, placementIndex)
      ensures role == Seeker ==>
                var candidates := if frameAvailable then Candidates(old(anchors)) else [];
                && placementIndex == old(placementIndex)
                && anchors == old(anchors)
                && (candidates == [] ==> discovered == old(discovered) && notice == NothingToFind)
                && (candidates != [] && MinSq(candidates, camera) < RangeSq ==>
                      && discovered == old(discovered) + [candidates[Nearest(candidates, camera)]]
                      && notice.ChordFound?
                      && candidates[Nearest(candidates, camera)].name == Some(notice.name))
                && (candidates != [] && MinSq(candidates, camera) >= RangeSq ==>
                      discovered == old(discovered) && notice == NothingNearby)
    {
      if role == Hider {
        notice := PlaceChord(hit);
      } else {
        notice := FindChord(camera);
      }
    }

    /** Joining an existing group makes the local player a seeker. */
    method HandleJoinSession()
      modifies this`role
      ensures role == Seeker
    {
      role := Seeker;
    }

    /**
     * Collaboration data produced by the AR session goes to every connected
     * peer, reliably exactly when it is critical; with no connected peers (or
     * no transport) it is not sent.
     */
    method DidOutputCollaborationData(data: CollaborationData)
      modifies this`sent
      ensures sent == if transportUp && connected != []
                      then old(sent) + [Outgoing(Archived(data), SendsReliably(data.priority), connected)]
                      else old(sent)
    {
      if !transportUp {
        return;
      }
      if connected != [] {
        var dataIsCritical := data.priority == Critical;
        sent := sent + [Outgoing(Archived(data), dataIsCritical, connected)];
      }
    }
  }

  /**
   * A peer announces session "S", two anchors of "S" arrive, the peer
   * re-announces as "T", then leaves: no anchor of either session is left and
   * the peer is forgotten; the local anchor survives throughout.
   */
  method DepartureScenario(peer: PeerId, mine: Anchor, at: Position)
    requires mine.sessionId == Some("L")
  {
    var c := new Coordinator("L");
    c.frameAvailable := true;
    c.ReceivedData(Wire(Utf8(EncodeAnnouncement("S"))), peer);
    AnnouncementDelivered("S");
    assert c.peerSessionIds[peer] == "S";
    var a1 := Anchor(None, Some("S"), at);
    var a2 := Anchor(Some("C Major"), Some("S"), at);
    c.anchors := [a1, mine, a2];
    c.ReceivedData(Wire(Utf8(EncodeAnnouncement("T"))), peer);
    AnnouncementDelivered("T");
    EvictedMembership([a1, mine, a2], "S", mine);
    assert mine in c.anchors && a1 !in c.anchors && a2 !in c.anchors;
    assert c.peerSessionIds[peer] == "T";
    var before := c.anchors;
    c.PeerLeft(peer);
    EvictedMembership(before, "T", mine);
    assert mine in c.anchors && a1 !in c.anchors && a2 !in c.anchors;
    assert peer !in c.peerSessionIds;
  }
}
