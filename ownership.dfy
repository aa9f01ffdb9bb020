/**
 * Attribution of anchors to AR sessions, and bulk eviction of everything one
 * session created.
 */
module Ownership {
  import opened Types

  /** The anchor was created by the AR session with identifier `id`. */
  predicate FromSession(a: Anchor, id: string)
  {
    a.sessionId == Some(id)
  }

  /** The anchors that survive evicting session `id`, in their original order. */
  function Evicted(anchors: seq<Anchor>, id: string): (kept: seq<Anchor>)
    ensures |kept| <= |anchors|
  {
    if anchors == [] then []
    else (if FromSession(anchors[0], id) then [] else [anchors[0]]) + Evicted(anchors[1..], id)
  }

  /** Eviction distributes over concatenation, so it can be done one anchor at a time. */
  lemma {:induction false} EvictedConcat(s: seq<Anchor>, t: seq<Anchor>, id: string)
    ensures Evicted(s + t, id) == Evicted(s, id) + Evicted(t, id)
  {
    if s == [] {
      assert s + t == t;
    } else {
      assert (s + t)[1..] == s[1..] + t;
      EvictedConcat(s[1..], t, id);
    }
  }

  /** Scanning one more anchor of a snapshot keeps it exactly when it is not from session `id`. */
  lemma EvictedStep(snapshot: seq<Anchor>, i: nat, id: string)
    requires i < |snapshot|
    ensures Evicted(snapshot[..i + 1], id) ==
              Evicted(snapshot[..i], id) + (if FromSession(snapshot[i], id) then [] else [snapshot[i]])
  {
    assert snapshot[..i + 1] == snapshot[..i] + [snapshot[i]];
    EvictedConcat(snapshot[..i], [snapshot[i]], id);
  }

  /**
   * Exactly the anchors of session `id` go: every other anchor, including one
   * with no session identifier, is kept.
   */
  lemma {:induction false} EvictedMembership(anchors: seq<Anchor>, id: string, a: Anchor)
    ensures a in Evicted(anchors, id) <==> a in anchors && !FromSession(a, id)
  {
    if anchors != [] {
      EvictedMembership(anchors[1..], id, a);
      assert anchors == [anchors[0]] + anchors[1..];
    }
  }

  /** After eviction no anchor of the evicted session remains. */
  lemma EvictedLeavesNone(anchors: seq<Anchor>, id: string)
    ensures forall a :: a in Evicted(anchors, id) ==> !FromSession(a, id)
  {
    forall a | a in Evicted(anchors, id) ensures !FromSession(a, id) {
      EvictedMembership(anchors, id, a);
    }
  }

  /** Evicting an identifier nothing carries changes nothing. */
  lemma {:induction false} EvictedUnknown(anchors: seq<Anchor>, id: string)
    requires forall a :: a in anchors ==> !FromSession(a, id)
    ensures Evicted(anchors, id) == anchors
  {
    if anchors != [] {
      assert anchors[0] in anchors;
      forall a | a in anchors[1..] ensures !FromSession(a, id) {
        assert a in anchors;
      }
      EvictedUnknown(anchors[1..], id);
      assert anchors == [anchors[0]] + anchors[1..];
    }
  }

  /** Evicting twice is the same as evicting once. */
  lemma EvictedIdempotent(anchors: seq<Anchor>, id: string)
    ensures Evicted(Evicted(anchors, id), id) == Evicted(anchors, id)
  {
    EvictedLeavesNone(anchors, id);
    EvictedUnknown(Evicted(anchors, id), id);
  }

  /** Two sessions can be evicted in either order with the same result. */
  lemma {:induction false} EvictedCommute(anchors: seq<Anchor>, id1: string, id2: string)
    ensures Evicted(Evicted(anchors, id1), id2) == Evicted(Evicted(anchors, id2), id1)
  {
    if anchors != [] {
      var head := [anchors[0]];
      assert anchors == head + anchors[1..];
      EvictedConcat(head, anchors[1..], id1);
      EvictedConcat(head, anchors[1..], id2);
      EvictedConcat(Evicted(head, id1), Evicted(anchors[1..], id1), id2);
      EvictedConcat(Evicted(head, id2), Evicted(anchors[1..], id2), id1);
      EvictedCommute(anchors[1..], id1, id2);
      assert Evicted(head, id1) == (if FromSession(anchors[0], id1) then [] else head);
      assert Evicted(head, id2) == (if FromSession(anchors[0], id2) then [] else head);
    }
  }
}
