/** `useAdminAuctionActions.updateAuctionStatus`: PATCH the status, then
    write it into the local auction list. */
module AdminAuctionActions {
  import opened Wrappers
  import opened AuctionStatus
  import opened Entities
  import Lists

  function SetStatus(newStatus: Status): Auction -> Auction {
    (a: Auction) => a.(auctionStatus := newStatus)
  }

  /** The local list after the request: unchanged when the PATCH failed;
      otherwise every auction with the id gets the new status and nothing
      else changes. The transition table is not consulted. */
  function UpdateAuctionStatus(auctions: seq<Auction>, auctionId: int, newStatus: Status, patch: Net<()>): (r: seq<Auction>)
    ensures patch.Failed? ==> r == auctions
    ensures |r| == |auctions|
    ensures patch.Ok? ==> forall i :: 0 <= i < |auctions| && auctions[i].id == auctionId ==>
      r[i].auctionStatus == newStatus && r[i] == auctions[i].(auctionStatus := newStatus)
    ensures forall i :: 0 <= i < |auctions| && auctions[i].id != auctionId ==> r[i] == auctions[i]
  {
    if patch.Failed? then auctions
    else Lists.UpdateKey(auctions, AuctionId, auctionId, SetStatus(newStatus))
  }

  /** Applying the same update twice is applying it once. */
  lemma UpdateIdempotent(auctions: seq<Auction>, auctionId: int, newStatus: Status)
    ensures UpdateAuctionStatus(UpdateAuctionStatus(auctions, auctionId, newStatus, Ok(())), auctionId, newStatus, Ok(()))
         == UpdateAuctionStatus(auctions, auctionId, newStatus, Ok(()))
  {
    Lists.UpdateKeyIdempotent(auctions, AuctionId, auctionId, SetStatus(newStatus));
  }

  /** Nothing stops a transition the table forbids: an ended auction can be
      put back to WAITING_APPROVED. */
  lemma ForbiddenTransitionIsWritten(a: Auction)
    requires a.auctionStatus == End
    ensures !CanTransition(End, WaitingApproved)
    ensures UpdateAuctionStatus([a], a.id, WaitingApproved, Ok(()))[0].auctionStatus == WaitingApproved
  {
  }
}
