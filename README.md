# Collaborative hide-and-seek session: a Dafny model

The app lets a small group of phones share one live AR map with no server. One
player (the hider) places a fixed, ordered list of chords on surfaces. The
others (seekers) walk around and tap to find the nearest one. Underneath runs a
small distributed-state layer:

- a registry maps each connected peer to the AR session identifier it last
  announced;
- every anchor an AR session created is evicted when its peer leaves or
  announces a new session identifier;
- a newly discovered peer is admitted only while fewer than four other peers
  are connected, so at most four other connected peers (five devices counting
  the local one) take part;
- collaboration data is sent reliably exactly when ARKit marks it critical;
- an identity announcement is the text `SessionID:` followed by the
  identifier.

The model is split into modules:

- `Types` holds the shared values: anchors, peers, chords, roles and
  collaboration data.
- `Framing` is the announcement encoder and decoder.
- `Relay` covers the payloads, how a received message is classified, and the
  choice of send mode.
- `Membership` is admission control.
- `Ownership` holds `Evicted`, the specification of bulk eviction, with its
  laws.
- `Placement` is the catalog and strictly in-order placement.
- `Discovery` is the nearest-candidate scan, written as a loop and proved
  against recursive specification functions.
- `Session` holds the class `Coordinator`. Its fields are the view
  controller's state: `peerSessionIds`, `placementIndex`, `discovered` and
  `role`. Beside them it mirrors what the foreign frameworks hold: the AR
  session's anchors, its identifier and whether it has a current frame, and
  whether the multipeer session exists, with its connected peers and a log of
  what was sent. Its methods are the event handlers, and each states the whole
  new state.

Distances are compared squared, over `real`. For nonnegative distances this
ordering is the same, so the range 3.0 appears as 9.0 and the starting minimum
100000.0 appears as 1e10. The raycast result and the camera position are
inputs to `HandleTap`. Received bytes are seen through the receiver's two
decoding attempts (unarchiving, then UTF-8), given as the record `Received`.

Where the intended design and the code differ, the model follows the code:

- A re-announcement evicts the anchors of the peer's recorded identifier even
  when the new identifier is the same one. The code never compares old and
  new.
- When the AR session has no current frame, eviction removes nothing. The
  registry entry is still overwritten (on a re-announcement) or dropped (on
  departure), so those anchors stay in the map, attributed to no known peer.
- No code in the view controller ever sets the role to hider. The role starts
  as seeker and joining a session sets it to seeker. The hider branch of a tap
  is modelled for a coordinator whose `role` field is `Hider`.
- The group bound is only the admission decision `PeerDiscovered`, which
  admits while at most three other peers are connected. That allows four other
  peers, five devices in all, although the comment and the rejection message
  speak of four users. Connecting a peer is done by the transport.
- The nearest-candidate scan starts from the first candidate with a running
  minimum of 100000.0 and moves only on a strictly smaller distance. When every
  candidate is at least 100000.0 away, it keeps the first candidate, not the
  nearest one (`DiscoveryBeyondSentinel`). This never changes a discovery,
  which needs a distance below 3.0.

`DepartureScenario` in `Session` is a worked run: a peer announces session
`S`, two anchors of `S` arrive, the peer re-announces as `T` and then leaves.
No anchor of either session is left, the peer is forgotten, and the local
anchor survives throughout. The scenario assigns `frameAvailable` and `anchors`
directly; they stand in for the AR session, which sets them in the app.

## Model

| member | source | states |
|---|---|---|
| Types.RawValueInjective | CollaborativeSession/ViewController.swift:123-124 | distinct chords have distinct raw values (`RawValue`, the enum's raw strings at Models + Utils.swift:12-15), so an anchor name identifies its chord |
| Framing.EncodeAnnouncement | CollaborativeSession/ViewController.swift:336-337 | the command starts with `SessionID:` and is exactly that prefix's length plus the identifier's |
| Framing.DecodeAnnouncement | CollaborativeSession/ViewController.swift:230-233 | text is accepted iff it starts with `SessionID:`; an accepted text is exactly the encoding of the identifier returned |
| Framing.RoundTrip | CollaborativeSession/ViewController.swift:230-233 | decoding the command built at line 337 gives back exactly the identifier |
| Framing.EncodeInjective | CollaborativeSession/ViewController.swift:337 | different identifiers give different commands |
| Relay.Classify | CollaborativeSession/ViewController.swift:224-241 | the result is collaboration data iff the bytes unarchive, and then it is that data; otherwise UTF-8 text carrying the prefix is the announcement of exactly the text after the prefix (and an announcement is always such a text); a message is ignored iff it is neither collaboration data nor prefixed text |
| Relay.AnnouncementDelivered | CollaborativeSession/ViewController.swift:231-233 | a sent announcement, decoded as the receiver does (`Wire`: text sent at line 337 arrives as UTF-8 only), is received as an announcement of the same identifier |
| Relay.ArchivedDelivered | CollaborativeSession/ViewController.swift:225-227 | sent collaboration data, decoded as the receiver does (`Wire`: data archived at line 214 unarchives), is received as that data and never touches the registry |
| Relay.SendsReliably | CollaborativeSession/ViewController.swift:216-218 | sent reliably iff the priority is critical |
| Membership.ShouldAdmit | CollaborativeSession/ViewController.swift:247-253 | admits iff fewer than four other peers are connected (count ≤ 3) |
| Membership.AdmissionKeepsBound | CollaborativeSession/ViewController.swift:247-248 | admitting one more peer never takes the number of other connected peers past four |
| Ownership.Evicted | CollaborativeSession/ViewController.swift:326-331 | the anchors left after the loop, never more than before; what survives is stated by `EvictedMembership` and the laws below |
| Ownership.EvictedConcat | CollaborativeSession/ViewController.swift:326-331 | eviction distributes over concatenation, so removing anchors one at a time in frame order computes it |
| Ownership.EvictedStep | CollaborativeSession/ViewController.swift:326-331 | one more scanned anchor is kept exactly when it is not from the evicted session |
| Ownership.EvictedMembership | CollaborativeSession/ViewController.swift:327-328 | an anchor survives iff it was present and not created by the evicted session; anchors with no session identifier are kept |
| Ownership.EvictedLeavesNone | CollaborativeSession/ViewController.swift:324-331 | no anchor of the evicted session remains |
| Ownership.EvictedUnknown | CollaborativeSession/ViewController.swift:324-331 | evicting an identifier no anchor carries changes nothing |
| Ownership.EvictedIdempotent | CollaborativeSession/ViewController.swift:324-331 | evicting twice equals evicting once |
| Ownership.EvictedCommute | CollaborativeSession/ViewController.swift:269-270 | evicting two sessions in either order gives the same anchors |
| Placement.CatalogDistinct | CollaborativeSession/ViewController.swift:25 | the catalog holds no chord twice |
| Placement.Place | CollaborativeSession/ViewController.swift:100-116 | no surface iff no hit; with a hit, a chord is placed iff chords are left, and it is the next catalog chord, named by its raw value, at the hit, tagged with the local session; with a hit and none left the catalog is exhausted |
| Placement.PlaceStep | CollaborativeSession/ViewController.swift:104-108 | the index after a tap (`NextIndex`, the increment at line 108) moves on by exactly one iff a surface was hit with chords left, otherwise stays; it stays in 0..4 and never decreases |
| Placement.PlaceAll | CollaborativeSession/ViewController.swift:100-119 | over a run of hider taps the index never decreases nor passes 4, exactly one anchor is placed per step of the index, all tagged with the local session; `PlaceAllSequential` says which chords |
| Placement.PlaceAllSequential | CollaborativeSession/ViewController.swift:104-108 | after k surface hits from index i, exactly catalog chords i..min(4, i+k) were placed, in order, and the index is min(4, i+k) |
| Discovery.Candidates | CollaborativeSession/ViewController.swift:122-125 | every candidate names a catalog chord (`IsCatalogAnchor`, the name test at 123-124) and there are no more candidates than anchors; `CandidatesMembership` gives the converse |
| Discovery.CandidatesMembership | CollaborativeSession/ViewController.swift:122-125 | candidates are exactly the anchors whose name is the raw value of a catalog chord |
| Discovery.MinSq | CollaborativeSession/ViewController.swift:127-141 | the running minimum of squared distances (`SqDist`, the square of `simd_distance` at 134) is at most the sentinel, no greater than any candidate's distance, and below the sentinel only as some candidate's distance |
| Discovery.Nearest | CollaborativeSession/ViewController.swift:128-138 | where `nearestAnchor` ends up: an index of the candidates; `NearestIsFirstMinimum` says which one |
| Discovery.NearestIsFirstMinimum | CollaborativeSession/ViewController.swift:129-138 | the chosen candidate is at the minimum and every earlier one is strictly farther (ties go to the earliest); with nothing below the sentinel the first is kept |
| Discovery.NearestIsMinimal | CollaborativeSession/ViewController.swift:134-137 | when some candidate is nearer than the 100000.0 sentinel, the chosen candidate is as near as every candidate |
| Discovery.NearestScan | CollaborativeSession/ViewController.swift:127-141 | the loop ends on `Nearest` with the running minimum `MinSq`: when some candidate is nearer than the 100000.0 sentinel, that is the first nearest candidate and its distance; otherwise the first candidate and the sentinel |
| Discovery.DiscoveryPicksNearest | CollaborativeSession/ViewController.swift:142 | candidates 5.0, 2.0 and 0.5 away: the 0.5 one is chosen and is in range |
| Discovery.DiscoveryOutOfRange | CollaborativeSession/ViewController.swift:142 | candidates 5.0 and 4.0 away: nothing is in range |
| Discovery.DiscoveryBeyondSentinel | CollaborativeSession/ViewController.swift:127-138 | candidates 200000.0 and 150000.0 away: the scan keeps the first, farther one, and the minimum stays the sentinel |
| Session.Coordinator.constructor | CollaborativeSession/ViewController.swift:19-28 | starts as a seeker with empty registry, index 0 and nothing discovered |
| Session.Coordinator.RemoveAllAnchorsFromSession | CollaborativeSession/ViewController.swift:324-332 | with a current frame the anchors become exactly `Evicted` of the old ones, and none from the session is left; without one nothing changes; only the anchors may change |
| Session.Coordinator.ReceivedData | CollaborativeSession/ViewController.swift:224-242 | collaboration data is applied and nothing else changes; an announcement evicts the peer's previously recorded session (when a frame exists) and then maps only that peer to the new identifier; anything else changes nothing |
| Session.Coordinator.PeerDiscovered | CollaborativeSession/ViewController.swift:244-254 | admits iff a multipeer session exists and at most three other peers are connected, so at most four other peers are connected after admission |
| Session.Coordinator.SendSessionIdTo | CollaborativeSession/ViewController.swift:334-341 | when a transport exists, appends one reliable send of the encoded announcement of the local identifier to exactly the given peers |
| Session.Coordinator.PeerJoined | CollaborativeSession/ViewController.swift:256-263 | the new peer, and only it, is sent the local announcement |
| Session.Coordinator.PeerLeft | CollaborativeSession/ViewController.swift:265-273 | the peer's entry is gone and, with a frame, every anchor of its recorded session is evicted; an unknown peer changes nothing |
| Session.Coordinator.HandleTap | CollaborativeSession/ViewController.swift:96-154 | a hider tap behaves as `Place` (index +1 and one anchor exactly when placed); a seeker tap changes nothing without candidates and appends exactly the first nearest candidate iff its distance is below 3.0 |
| Session.Coordinator.PlaceChord | CollaborativeSession/ViewController.swift:101-119 | the hider branch: the index and anchors change exactly as `Place` and `NextIndex` say, the index stays within the catalog, and the notice names the placed chord and the next one |
| Session.Coordinator.FindChord | CollaborativeSession/ViewController.swift:122-151 | the seeker branch: with no candidates nothing changes; otherwise the first nearest candidate is appended to `discovered` iff its distance is below 3.0, and the notice names it |
| Session.Coordinator.HandleJoinSession | CollaborativeSession/ViewController.swift:308-312 | the role becomes seeker and nothing else changes |
| Session.Coordinator.DidOutputCollaborationData | CollaborativeSession/ViewController.swift:211-222 | with a transport and at least one connected peer, one send to all of them, reliable iff critical; otherwise nothing is sent |

## Left out

- The session identifier observation (key-value observation of the AR session's identifier, re-announcing to all connected peers) and the rest of the view's setup are left out. They are framework configuration.
- Raycasting and reading the camera transform: their results are inputs of `HandleTap`.
- Floating point: `simd_distance` in `Float` is modelled as exact squared Euclidean distance over `real`.
- Archiving and unarchiving are not modelled. They are opaque library serialisation. The archiving `fatalError` cannot be reached in the model.
- UTF-8 encoding and decoding are not modelled, and neither is Swift's `Character` (grapheme cluster) comparison in `starts(with:)`. Strings are sequences of `char`. Session identifiers are UUID strings, so a combining mark right after the prefix cannot occur.
- The conversion of an anchor's session `UUID` to its `uuidString` is not modelled. Anchors carry the identifier string directly.
- The multipeer transport is not modelled: advertising, invitations, delivery, and how `connected` changes. It is a foreign framework. `connected`, `transportUp`, `frameAvailable` and `anchors` are set by the environment.
- Applying collaboration data to the AR session only records the data in `applied`. Anchors it may later add are not modelled.
- Rendering, model loading and audio are left out: `session(_:didAdd:)` and the entity built for a discovered chord. `discovered` holds the found anchors themselves.
- UI output is left out: labels, alerts, the error handler `session(_:didFailWithError:)` and the status-bar overrides. Tap outcomes are returned as a `TapNotice` instead.
- Concurrency and frame snapshots are not modelled. Every handler is one atomic step, and handlers run one at a time; the queues on which the transport and the AR session call back are not part of this model. One `anchors` sequence stands both for the current frame's snapshot that is read (`currentFrame?.anchors` at line 122, `frame.anchors` at 326) and for the session's anchors that `session.add` (107) and `session.remove` (329) change. So `RemoveAllAnchorsFromSession`, `ReceivedData`, `PeerLeft` and `HandleTap` see each change at once: their "no anchor of the session is left" holds for the session's anchors, not for a frame captured earlier, which may still list them.
- `resetTracking` is not modelled. It only removes scene entities, and it clears neither `discoveredChordAnchors` nor any registry state.
- Whether the multipeer session's `connectedPeers` includes the local peer cannot be seen: `MultipeerSession` is not part of this model. The model takes `connected` to hold only the other peers, so the admission bound is four other peers (five devices). That is one more than the four users named in the comment and message at lines 248-249.
