/**
 * The seeker's side of the game: among the anchors that mark a catalog chord,
 * find the nearest one to the camera and report it if it is within range.
 *
 * Distances are compared squared, which orders nonnegative distances the same
 * way, so the range 3.0 and the starting minimum 100000.0 appear squared.
 */
module Discovery {
  import opened Types
  import opened Placement

  /** A chord is discovered only when it is nearer than this. */
  const Range: real := 3.0
  const RangeSq: real := Range * Range

  /** The starting value of the running minimum. */
  const Sentinel: real := 100000.0
  const SentinelSq: real := Sentinel * Sentinel

  /** The anchor's name is the raw value of some catalog chord. */
  predicate IsCatalogAnchor(a: Anchor)
  {
    exists i :: 0 <= i < |Catalog| && a.name == Some(RawValue(Catalog[i]))
  }

  /** The anchors that mark catalog chords, in map order. */
  function Candidates(anchors: seq<Anchor>): (c: seq<Anchor>)
    ensures |c| <= |anchors|
    ensures forall j :: 0 <= j < |c| ==> IsCatalogAnchor(c[j])
  {
    if anchors == [] then []
    else (if IsCatalogAnchor(anchors[0]) then [anchors[0]] else []) + Candidates(anchors[1..])
  }

  /** The candidates are exactly the anchors whose name is in the catalog. */
  lemma {:induction false} CandidatesMembership(anchors: seq<Anchor>, a: Anchor)
    ensures a in Candidates(anchors) <==> a in anchors && IsCatalogAnchor(a)
  {
    if anchors != [] {
      CandidatesMembership(anchors[1..], a);
      assert anchors == [anchors[0]] + anchors[1..];
    }
  }

  function SqDist(a: Anchor, camera: Position): real
  {
    var dx := a.position.x - camera.x;
    var dy := a.position.y - camera.y;
    var dz := a.position.z - camera.z;
    dx * dx + dy * dy + dz * dz
  }

  /** The running minimum after scanning all of `s`, starting from the sentinel. */
  function MinSq(s: seq<Anchor>, camera: Position): (m: real)
    ensures m <= SentinelSq
    ensures forall j :: 0 <= j < |s| ==> m <= SqDist(s[j], camera)
    ensures m < SentinelSq ==> exists j :: 0 <= j < |s| && m == SqDist(s[j], camera)
  {
    if s == [] then SentinelSq
    else
      var init := s[..|s| - 1];
      var m := MinSq(init, camera);
      var d := SqDist(s[|s| - 1], camera);
      assert forall j :: 0 <= j < |s| - 1 ==> s[j] == init[j];
      if d < m then d else m
  }

  /** The index the scan settles on: it moves only on a strictly smaller distance. */
  function Nearest(s: seq<Anchor>, camera: Position): (i: nat)
    ensures s != [] ==> i < |s|
  {
    if s == [] then 0
    else if SqDist(s[|s| - 1], camera) < MinSq(s[..|s| - 1], camera) then |s| - 1
    else Nearest(s[..|s| - 1], camera)
  }

  /**
   * The scan picks the first anchor at the minimum distance: if anything is
   * nearer than the sentinel, the chosen anchor is at the minimum and every
   * anchor before it is strictly farther; otherwise the scan stays on the first.
   */
  lemma {:induction false} NearestIsFirstMinimum(s: seq<Anchor>, camera: Position)
    requires s != []
    ensures Nearest(s, camera) < |s|
    ensures MinSq(s, camera) < SentinelSq ==>
              && SqDist(s[Nearest(s, camera)], camera) == MinSq(s, camera)
              && forall j :: 0 <= j < Nearest(s, camera) ==> SqDist(s[j], camera) > MinSq(s, camera)
    ensures MinSq(s, camera) == SentinelSq ==> Nearest(s, camera) == 0
  {
    var init := s[..|s| - 1];
    var d := SqDist(s[|s| - 1], camera);
    if init == [] {
      assert |s| == 1;
    } else {
      NearestIsFirstMinimum(init, camera);
      assert forall j :: 0 <= j < |init| ==> s[j] == init[j];
      if d < MinSq(init, camera) {
        assert Nearest(s, camera) == |s| - 1;
      } else {
        assert Nearest(s, camera) == Nearest(init, camera);
        assert MinSq(s, camera) == MinSq(init, camera);
      }
    }
  }

  /** The chosen anchor is as near as any candidate. */
  lemma NearestIsMinimal(s: seq<Anchor>, camera: Position, j: nat)
    requires j < |s|
    requires MinSq(s, camera) < SentinelSq
    ensures Nearest(s, camera) < |s| && SqDist(s[Nearest(s, camera)], camera) <= SqDist(s[j], camera)
  {
    NearestIsFirstMinimum(s, camera);
  }

  /**
   * The linear nearest-candidate scan of a discovery tap: returns the index of
   * the nearest candidate and the running minimum it ended with.
   */
  method NearestScan(candidates: seq<Anchor>, camera: Position) returns (nearest: nat, minSq: real)
    requires candidates != []
    ensures nearest == Nearest(candidates, camera) && nearest < |candidates|
    ensures minSq == MinSq(candidates, camera)
  {
    minSq := SentinelSq;
    nearest := 0;
    var i := 0;
    while i < |candidates|
      invariant 0 <= i <= |candidates|
      invariant minSq == MinSq(candidates[..i], camera)
      invariant nearest == Nearest(candidates[..i], camera)
    {
      var d := SqDist(candidates[i], camera);
      assert candidates[..i + 1][..i] == candidates[..i];
      if d < minSq {
        minSq := d;
        nearest := i;
      }
      i := i + 1;
    }
    assert candidates[..i] == candidates;
    NearestIsFirstMinimum(candidates, camera);
  }

  /** Candidates 5.0, 2.0 and 0.5 away: the third is chosen and is within range. */
  lemma DiscoveryPicksNearest()
    ensures var camera := Position(0.0, 0.0, 0.0);
            var s := [Anchor(Some("C Major"), None, Position(5.0, 0.0, 0.0)),
                      Anchor(Some("F Major"), None, Position(0.0, 2.0, 0.0)),
                      Anchor(Some("G Major"), None, Position(0.0, 0.0, 0.5))];
            Nearest(s, camera) == 2 && MinSq(s, camera) < RangeSq
  {
    var camera := Position(0.0, 0.0, 0.0);
    var s := [Anchor(Some("C Major"), None, Position(5.0, 0.0, 0.0)),
              Anchor(Some("F Major"), None, Position(0.0, 2.0, 0.0)),
              Anchor(Some("G Major"), None, Position(0.0, 0.0, 0.5))];
    assert SqDist(s[0], camera) == 25.0;
    assert SqDist(s[1], camera) == 4.0;
    assert SqDist(s[2], camera) == 0.25;
    assert s[..2][..1] == s[..1] && s[..1][..0] == [];
    assert s[..3] == s;
    assert MinSq(s[..1], camera) == 25.0;
    assert MinSq(s[..2], camera) == 4.0;
    assert MinSq(s, camera) == 0.25;
  }

  /** Candidates 5.0 and 4.0 away: nothing is within range. */
  lemma DiscoveryOutOfRange()
    ensures var camera := Position(1.0, 1.0, 1.0);
            var s := [Anchor(Some("C Major"), None, Position(6.0, 1.0, 1.0)),
                      Anchor(Some("A Minor"), None, Position(1.0, 1.0, 5.0))];
            MinSq(s, camera) >= RangeSq
  {
    var camera := Position(1.0, 1.0, 1.0);
    var s := [Anchor(Some("C Major"), None, Position(6.0, 1.0, 1.0)),
              Anchor(Some("A Minor"), None, Position(1.0, 1.0, 5.0))];
    assert SqDist(s[0], camera) == 25.0;
    assert SqDist(s[1], camera) == 16.0;
    assert s[..1][..0] == [] && s[..2] == s;
    assert MinSq(s[..1], camera) == 25.0;
  }

  /**
   * Candidates 200000.0 and 150000.0 away: nothing beats the sentinel, so the
   * scan keeps the first, farther one.
   */
  lemma DiscoveryBeyondSentinel()
    ensures var camera := Position(0.0, 0.0, 0.0);
            var s := [Anchor(Some("C Major"), None, Position(200000.0, 0.0, 0.0)),
                      Anchor(Some("F Major"), None, Position(150000.0, 0.0, 0.0))];
            && Nearest(s, camera) == 0
            && MinSq(s, camera) == SentinelSq
            && SqDist(s[1], camera) < SqDist(s[0], camera)
  {
    var camera := Position(0.0, 0.0, 0.0);
    var s := [Anchor(Some("C Major"), None, Position(200000.0, 0.0, 0.0)),
              Anchor(Some("F Major"), None, Position(150000.0, 0.0, 0.0))];
    assert SqDist(s[0], camera) == 40000000000.0;
    assert SqDist(s[1], camera) == 22500000000.0;
    assert s[..1][..0] == [] && s[..2] == s;
    assert MinSq(s[..1], camera) == SentinelSq;
    assert Nearest(s[..1], camera) == 0;
  }
}
