/** The two date validators of the create-auction form. `now` is the time
    at which the validator runs; an unset companion date is `None`. Dates are
    timestamps, compared as numbers.
 */
module AuctionValidation {
  import opened Wrappers

  /** `true`, or the message react-hook-form shows under the field. */
  datatype Verdict = Accept | Reject(message: string)

  const StartInPast: string := "Start date must be in the future"
  const StartAfterEnd: string := "Start date must be before end date"
  const EndInPast: string := "End date must be in the future"
  const EndBeforeStart: string := "End date must be after start date"

  /** `validateStartDate(getValues)(start)` with `endAuctionDate` = `end`. */
  function ValidateStartDate(start: int, end: Option<int>, now: int): (r: Verdict)
    ensures start <= now ==> r == Reject(StartInPast)
    ensures start > now && end.Some? && start >= end.value ==> r == Reject(StartAfterEnd)
    ensures r == Accept <==> start > now && (end.None? || start < end.value)
  {
    if start <= now then Reject(StartInPast)
    else if end.Some? && start >= end.value then Reject(StartAfterEnd)
    else Accept
  }

  /** `validateEndDate(getValues)(end)` with `startAuctionDate` = `start`. */
  function ValidateEndDate(end: int, start: Option<int>, now: int): (r: Verdict)
    ensures end <= now ==> r == Reject(EndInPast)
    ensures end > now && start.Some? && end <= start.value ==> r == Reject(EndBeforeStart)
    ensures r == Accept <==> end > now && (start.None? || end > start.value)
  {
    if end <= now then Reject(EndInPast)
    else if start.Some? && end <= start.value then Reject(EndBeforeStart)
    else Accept
  }

  /** For two future dates the validators reject the same orderings: each
      refuses exactly when the start is not before the end. */
  lemma SameOrderingsRejected(start: int, end: int, now: int)
    requires start > now && end > now
    ensures ValidateStartDate(start, Some(end), now).Reject? <==> start >= end
    ensures ValidateEndDate(end, Some(start), now).Reject? <==> start >= end
    ensures ValidateStartDate(start, Some(end), now).Reject? <==> ValidateEndDate(end, Some(start), now).Reject?
  {
  }

  /** Both validators accepting the same pair at the same `now` puts the
      auction entirely in the future, with a positive duration. */
  lemma BothAcceptOrdersDates(start: int, end: int, now: int)
    requires ValidateStartDate(start, Some(end), now) == Accept
    requires ValidateEndDate(end, Some(start), now) == Accept
    ensures now < start < end
  {
  }

  /** Both dates in the future and in order is all the validators ask. */
  lemma OrderedFutureDatesAccepted(start: int, end: int, now: int)
    requires now < start < end
    ensures ValidateStartDate(start, Some(end), now) == Accept
    ensures ValidateEndDate(end, Some(start), now) == Accept
  {
  }
}
