/** The auction status lifecycle: the four statuses (`AUCTION_STATUS`) and
    the table of allowed next statuses (`statusTransitions`) that fills the
    admin's status drop-down.
 */
module AuctionStatus {
  import opened Wrappers

  datatype Status = WaitingApproved | InProgress | Canceled | End

  /** The wire name of a status. */
  function Name(s: Status): string {
    match s
    case WaitingApproved => "WAITING_APPROVED"
    case InProgress => "IN_PROGRESS"
    case Canceled => "CANCELED"
    case End => "END"
  }

  /** The status a wire name denotes, if any. */
  function Parse(n: string): (r: Option<Status>)
    ensures r.Some? ==> Name(r.value) == n
    ensures r.None? ==> forall s :: Name(s) != n
  {
    if n == "WAITING_APPROVED" then Some(WaitingApproved)
    else if n == "IN_PROGRESS" then Some(InProgress)
    else if n == "CANCELED" then Some(Canceled)
    else if n == "END" then Some(End)
    else None
  }

  /** `AUCTION_STATUS`. */
  const AuctionStatusNames: seq<string> := ["WAITING_APPROVED", "IN_PROGRESS", "CANCELED", "END"]

  /** `statusTransitions`. */
  const StatusTransitions: map<string, seq<string>> := map[
    "WAITING_APPROVED" := ["IN_PROGRESS", "CANCELED"],
    "IN_PROGRESS" := ["CANCELED"],
    "CANCELED" := [],
    "END" := []
  ]

  /** `b` is offered as a next status of `a`. */
  function CanTransition(a: Status, b: Status): (ok: bool)
    ensures ok ==> a != b && b != WaitingApproved && b != End
  {
    Name(a) in StatusTransitions && Name(b) in StatusTransitions[Name(a)]
  }

  /** Wire names and statuses correspond one to one. */
  lemma NamesRoundTrip(s: Status)
    ensures Parse(Name(s)) == Some(s)
    ensures Name(s) in AuctionStatusNames
  {
  }

  /** The table has an entry for exactly the four statuses, and lists only
      statuses as targets. */
  lemma TableIsOverStatuses()
    ensures StatusTransitions.Keys == set n | n in AuctionStatusNames
    ensures forall n, t :: n in StatusTransitions && t in StatusTransitions[n] ==> t in AuctionStatusNames
  {
  }

  /** CANCELED and END are terminal; from IN_PROGRESS the only way on is
      CANCELED; from WAITING_APPROVED it is IN_PROGRESS or CANCELED. */
  lemma Successors(b: Status)
    ensures !CanTransition(Canceled, b) && !CanTransition(End, b)
    ensures CanTransition(InProgress, b) <==> b == Canceled
    ensures CanTransition(WaitingApproved, b) <==> b == InProgress || b == Canceled
  {
  }

  /** No status may follow itself, and nothing leads into WAITING_APPROVED
      or END. */
  lemma NoSelfOrEntryTransitions(a: Status)
    ensures !CanTransition(a, a)
    ensures !CanTransition(a, WaitingApproved) && !CanTransition(a, End)
  {
  }

  /** How far along the lifecycle a status is. */
  function Rank(s: Status): nat {
    match s
    case WaitingApproved => 0
    case InProgress => 1
    case Canceled => 2
    case End => 2
  }

  /** Every allowed transition moves strictly forward, so the relation has
      no cycle. */
  lemma TransitionsMoveForward(a: Status, b: Status)
    requires CanTransition(a, b)
    ensures Rank(a) < Rank(b)
  {
  }

  /** A run of allowed transitions. */
  predicate IsChain(ss: seq<Status>) {
    forall i :: 0 <= i < |ss| - 1 ==> CanTransition(ss[i], ss[i + 1])
  }

  lemma {:induction false} ChainRankGrows(ss: seq<Status>)
    requires IsChain(ss)
    requires ss != []
    ensures Rank(ss[|ss| - 1]) >= |ss| - 1
    decreases |ss|
  {
    if |ss| > 1 {
      var init := ss[..|ss| - 1];
      assert IsChain(init) by {
        forall i | 0 <= i < |init| - 1 ensures CanTransition(init[i], init[i + 1]) {
          assert init[i] == ss[i] && init[i + 1] == ss[i + 1];
        }
      }
      ChainRankGrows(init);
      TransitionsMoveForward(ss[|ss| - 2], ss[|ss| - 1]);
    }
  }

  /** Every chain of transitions has at most two steps, and never visits a
      status twice. */
  lemma ChainsAreShort(ss: seq<Status>)
    requires IsChain(ss)
    ensures |ss| <= 3
    ensures forall i, j :: 0 <= i < j < |ss| ==> ss[i] != ss[j]
  {
    if ss != [] {
      ChainRankGrows(ss);
    }
    forall i, j | 0 <= i < j < |ss| ensures ss[i] != ss[j] {
      ChainRanksIncrease(ss, i, j);
    }
  }

  lemma {:induction false} ChainRanksIncrease(ss: seq<Status>, i: nat, j: nat)
    requires IsChain(ss)
    requires i < j < |ss|
    ensures Rank(ss[i]) < Rank(ss[j])
    decreases j - i
  {
    TransitionsMoveForward(ss[i], ss[i + 1]);
    if i + 1 < j {
      ChainRanksIncrease(ss, i + 1, j);
    }
  }
}
