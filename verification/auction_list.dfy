/** The public auction list page (`AuctionListPage`): the list loaded once
    on mount, and `handleAuctionExpire`, which a card calls when its
    countdown runs out.
 */
module AuctionList {
  import opened Wrappers
  import opened Entities
  import Lists

  /** The page state: the auctions shown and whether loading is still on. */
  datatype Page = Page(auctions: seq<Auction>, loading: bool)

  const Initial: Page := Page([], true)

  /** The load on mount: the fetched list on success; on failure the list
      keeps its initial empty value. Loading ends either way. */
  function Load(fetch: Net<seq<Auction>>): (r: Page)
    ensures !r.loading
    ensures fetch.Failed? ==> r.auctions == Initial.auctions == []
    ensures fetch.Ok? ==> r.auctions == fetch.value
  {
    Page(if fetch.Ok? then fetch.value else Initial.auctions, false)
  }

  /** `handleAuctionExpire(expiredId)`: no auction with that id remains;
      every other auction remains. */
  function HandleAuctionExpire(auctions: seq<Auction>, expiredId: int): (r: seq<Auction>)
    ensures forall a :: a in r ==> a in auctions && a.id != expiredId
    ensures forall a :: a in auctions && a.id != expiredId ==> a in r
    ensures forall a :: a in auctions && a.id != expiredId ==> multiset(r)[a] == multiset(auctions)[a]
  {
    Lists.RemoveKey(auctions, AuctionId, expiredId)
  }

  /** The survivors keep their order: expiring distributes over any split
      of the list. */
  lemma ExpireKeepsOrder(a: seq<Auction>, b: seq<Auction>, expiredId: int)
    ensures HandleAuctionExpire(a + b, expiredId) == HandleAuctionExpire(a, expiredId) + HandleAuctionExpire(b, expiredId)
  {
    Lists.RemoveKeyKeepsOrder(a, b, AuctionId, expiredId);
  }

  /** Expiring an id that is not in the list changes nothing. */
  lemma ExpireAbsentId(auctions: seq<Auction>, expiredId: int)
    requires forall a :: a in auctions ==> a.id != expiredId
    ensures HandleAuctionExpire(auctions, expiredId) == auctions
  {
    Lists.RemoveAbsentKey(auctions, AuctionId, expiredId);
  }

  /** Expiring the same id twice is expiring it once. */
  lemma ExpireTwice(auctions: seq<Auction>, expiredId: int)
    ensures HandleAuctionExpire(HandleAuctionExpire(auctions, expiredId), expiredId)
         == HandleAuctionExpire(auctions, expiredId)
  {
    Lists.RemoveKeyIdempotent(auctions, AuctionId, expiredId);
  }
}
