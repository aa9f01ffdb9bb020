/**
 * Admission control: a newly discovered peer is turned away once four other
 * peers are connected, so at most four other peers (five devices counting the
 * local one) take part.
 */
module Membership {

  /** The largest number of other peers a session may be connected to. */
  const MaxConnectedPeers: nat := 4

  /**
   * Whether a newly discovered peer may join, given how many other peers are
   * connected already: with four connected, the next one is turned away.
   */
  function ShouldAdmit(connectedCount: nat): (admit: bool)
    ensures admit <==> connectedCount < MaxConnectedPeers
  {
    !(connectedCount > 3)
  }

  /** Admitting one more peer never takes the group past its bound. */
  lemma AdmissionKeepsBound(connectedCount: nat)
    ensures ShouldAdmit(connectedCount) ==> connectedCount + 1 <= MaxConnectedPeers
    ensures connectedCount <= MaxConnectedPeers ==>
              (if ShouldAdmit(connectedCount) then connectedCount + 1 else connectedCount) <= MaxConnectedPeers
  {
  }
}
