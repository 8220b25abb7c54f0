/** `getAuctionStatusClass`: the badge colour of an auction status. The
    status arrives from the server as a string, so any value can reach the
    `default` branch.
 */
module AuctionStyle {
  import opened AuctionStatus

  const DefaultClass: string := "bg-gray-100 text-gray-800"

  function StatusClass(status: string): (r: string)
    ensures r != ""
    ensures status in AuctionStatusNames <==> r != DefaultClass
    ensures status == Name(WaitingApproved) ==> r == "bg-yellow-100 text-yellow-800"
    ensures status == Name(InProgress) ==> r == "bg-blue-100 text-blue-800"
    ensures status == Name(Canceled) ==> r == "bg-red-100 text-red-800"
    ensures status == Name(End) ==> r == "bg-green-100 text-green-800"
  {
    match status
    case "WAITING_APPROVED" => "bg-yellow-100 text-yellow-800"
    case "IN_PROGRESS" => "bg-blue-100 text-blue-800"
    case "CANCELED" => "bg-red-100 text-red-800"
    case "END" => "bg-green-100 text-green-800"
    case _ => DefaultClass
  }

  /** Different statuses get different badges. */
  lemma StatusClassesDistinct(a: Status, b: Status)
    requires a != b
    ensures StatusClass(Name(a)) != StatusClass(Name(b))
  {
  }
}
