/**
 * The hider's side of the game: the fixed, ordered catalog of chords is
 * consumed strictly in order, one chord per successful tap.
 */
module Placement {
  import opened Types

  /** The chords to hide, in the order they are placed. */
  const Catalog: seq<Chord> := [CMajor, FMajor, GMajor, AMinor]

  /** No chord appears twice in the catalog, so each is placed at most once. */
  lemma CatalogDistinct()
    ensures forall i, j :: 0 <= i < j < |Catalog| ==> Catalog[i] != Catalog[j]
  {
  }

  /** The anchor that marks chord `c` hidden at `at` by the local session `sessionId`. */
  function ChordAnchor(c: Chord, at: Position, sessionId: string): Anchor
  {
    Anchor(Some(RawValue(c)), Some(sessionId), at)
  }

  /** What one hider tap does with a surface hit (or none) at catalog position `index`. */
  datatype PlacementOutcome = NoSurface | Exhausted | Placed(chord: Chord, anchor: Anchor)

  function Place(index: nat, hit: Option<Position>, sessionId: string): (o: PlacementOutcome)
    requires index <= |Catalog|
    ensures o.NoSurface? <==> hit.None?
    ensures o.Exhausted? <==> hit.Some? && index == |Catalog|
    ensures o.Placed? <==> hit.Some? && index < |Catalog|
    ensures o.Placed? ==>
              && o.chord == Catalog[index]
              && o.anchor.name == Some(RawValue(Catalog[index]))
              && o.anchor.sessionId == Some(sessionId)
              && o.anchor.position == hit.value
  {
    if hit.None? then NoSurface
    else if index < |Catalog| then Placed(Catalog[index], ChordAnchor(Catalog[index], hit.value, sessionId))
    else Exhausted
  }

  /** The placement index after a tap with outcome `o`. */
  function NextIndex(index: nat, o: PlacementOutcome): nat
  {
    if o.Placed? then index + 1 else index
  }

  /**
   * One tap moves the index on by exactly one when a chord was placed and
   * leaves it otherwise: it never decreases and never passes the catalog's length.
   */
  lemma PlaceStep(index: nat, hit: Option<Position>, sessionId: string)
    requires index <= |Catalog|
    ensures var next := NextIndex(index, Place(index, hit, sessionId));
            && index <= next <= |Catalog|
            && (next == index + 1 <==> hit.Some? && index < |Catalog|)
            && (next == index <==> hit.None? || index == |Catalog|)
  {
  }

  /** The index and the anchors placed by a run of taps. */
  datatype Progress = Progress(index: nat, placed: seq<Anchor>)

  function PlaceAll(index: nat, hits: seq<Option<Position>>, sessionId: string): (p: Progress)
    requires index <= |Catalog|
    ensures index <= p.index <= |Catalog|
    ensures |p.placed| == p.index - index
    ensures forall j :: 0 <= j < |p.placed| ==> p.placed[j].sessionId == Some(sessionId)
    decreases |hits|
  {
    if hits == [] then Progress(index, [])
    else
      var o := Place(index, hits[0], sessionId);
      var rest := PlaceAll(NextIndex(index, o), hits[1..], sessionId);
      Progress(rest.index, (if o.Placed? then [o.anchor] else []) + rest.placed)
  }

  /** The number of taps that found a surface. */
  function SurfaceHits(hits: seq<Option<Position>>): nat
  {
    if hits == [] then 0 else (if hits[0].Some? then 1 else 0) + SurfaceHits(hits[1..])
  }

  function Min(a: nat, b: nat): nat
  {
    if a <= b then a else b
  }

  /**
   * Placement is strictly sequential: starting at `index`, a run of taps with
   * k surface hits places exactly the chords Catalog[index..index+k] (cut at
   * the catalog's end), in catalog order, all tagged with the local session,
   * and leaves the index just past the last one placed.
   */
  lemma {:induction false} PlaceAllSequential(index: nat, hits: seq<Option<Position>>, sessionId: string)
    requires index <= |Catalog|
    ensures var p := PlaceAll(index, hits, sessionId);
            var k := Min(|Catalog|, index + SurfaceHits(hits));
            && p.index == k
            && |p.placed| == k - index
            && forall j :: 0 <= j < |p.placed| ==>
                 p.placed[j].name == Some(RawValue(Catalog[index + j])) &&
                 p.placed[j].sessionId == Some(sessionId)
    decreases |hits|
  {
    if hits != [] {
      var o := Place(index, hits[0], sessionId);
      var next := NextIndex(index, o);
      PlaceAllSequential(next, hits[1..], sessionId);
      var rest := PlaceAll(next, hits[1..], sessionId);
      var p := PlaceAll(index, hits, sessionId);
      assert p == Progress(rest.index, (if o.Placed? then [o.anchor] else []) + rest.placed);
      assert SurfaceHits(hits) == (if hits[0].Some? then 1 else 0) + SurfaceHits(hits[1..]);
      if o.Placed? {
        PlacedHead(o.anchor, rest.placed, index, sessionId);
      } else {
        assert next == index && hits[0].Some? ==> index == |Catalog|;
      }
    }
  }

  /** A placed anchor followed by the chords after it lists the chords from `index` on. */
  lemma PlacedHead(a: Anchor, rest: seq<Anchor>, index: nat, sessionId: string)
    requires index < |Catalog| && index + 1 + |rest| <= |Catalog|
    requires a.name == Some(RawValue(Catalog[index])) && a.sessionId == Some(sessionId)
    requires forall j :: 0 <= j < |rest| ==>
               rest[j].name == Some(RawValue(Catalog[index + 1 + j])) && rest[j].sessionId == Some(sessionId)
    ensures forall j :: 0 <= j < |[a] + rest| ==>
              ([a] + rest)[j].name == Some(RawValue(Catalog[index + j])) &&
              ([a] + rest)[j].sessionId == Some(sessionId)
  {
    forall j | 0 <= j < |[a] + rest|
      ensures ([a] + rest)[j].name == Some(RawValue(Catalog[index + j]))
      ensures ([a] + rest)[j].sessionId == Some(sessionId)
    {
      if j > 0 {
        assert ([a] + rest)[j] == rest[j - 1];
      }
    }
  }
}
