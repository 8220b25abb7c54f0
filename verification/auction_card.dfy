/** `AuctionCard`'s countdown. The card starts with one reading of
    `calculateTimeRemaining` (not clamped); each interval tick takes a new
    reading, clamps it at zero, shows it, and on a total of zero or less
    stops the interval and reports the card's auction id. The readings are
    parameters: what `calculateTimeRemaining` computes is not modelled.
 */
module AuctionCard {
  import opened Wrappers

  /** `IAuctionRemainingTime`. */
  datatype Remaining = Remaining(days: int, hours: int, minutes: int, seconds: int, total: int)

  function Max0(x: int): int { if x < 0 then 0 else x }

  /** `nonNegativeRemaining`: every field raised to at least zero. */
  function Clamp(t: Remaining): (r: Remaining)
    ensures r.days >= 0 && r.hours >= 0 && r.minutes >= 0 && r.seconds >= 0 && r.total >= 0
    ensures t.days >= 0 ==> r.days == t.days
    ensures t.hours >= 0 ==> r.hours == t.hours
    ensures t.minutes >= 0 ==> r.minutes == t.minutes
    ensures t.seconds >= 0 ==> r.seconds == t.seconds
    ensures t.total >= 0 ==> r.total == t.total
    ensures r.total <= 0 <==> t.total <= 0
  {
    Remaining(Max0(t.days), Max0(t.hours), Max0(t.minutes), Max0(t.seconds), Max0(t.total))
  }

  /** The card: its auction's id, the remaining time it shows, and whether
      its interval is still running. */
  datatype Card = Card(auctionId: int, shown: Remaining, running: bool)

  /** The first render: the initial reading is shown as it is. */
  function Mount(auctionId: int, initial: Remaining): (c: Card)
    ensures c.auctionId == auctionId && c.shown == initial && c.running
  {
    Card(auctionId, initial, true)
  }

  /** One interval tick with the reading `reading`: the card and the id
      passed to `onExpire`, if it was called. A stopped interval does not
      tick. */
  function Tick(c: Card, reading: Remaining): (r: (Card, Option<int>))
    ensures !c.running ==> r == (c, None)
    ensures c.running ==> r.0.shown == Clamp(reading)
    ensures r.1.Some? <==> c.running && reading.total <= 0
    ensures r.1.Some? ==> r.1.value == c.auctionId
    ensures r.0.running <==> c.running && reading.total > 0
    ensures r.0.auctionId == c.auctionId
  {
    if !c.running then (c, None)
    else
      var shown := Clamp(reading);
      if shown.total <= 0 then (Card(c.auctionId, shown, false), Some(c.auctionId))
      else (Card(c.auctionId, shown, true), None)
  }

  /** Ticks with the readings in turn: the final card and every id passed
      to `onExpire`, in order. */
  function Run(c: Card, readings: seq<Remaining>): (Card, seq<int>)
    decreases |readings|
  {
    if readings == [] then (c, [])
    else
      var (next, call) := Tick(c, readings[0]);
      var (last, calls) := Run(next, readings[1..]);
      (last, (if call.Some? then [call.value] else []) + calls)
  }

  predicate SomeReadingExpired(readings: seq<Remaining>) {
    exists i :: 0 <= i < |readings| && readings[i].total <= 0
  }

  /** However many ticks there are, `onExpire` is called at most once, with
      this card's id; it is called exactly when the interval was running and
      some reading reached zero, after which the interval is stopped. */
  lemma {:induction false} ExpiresAtMostOnce(c: Card, readings: seq<Remaining>)
    ensures |Run(c, readings).1| <= 1
    ensures forall i :: 0 <= i < |Run(c, readings).1| ==> Run(c, readings).1[i] == c.auctionId
    ensures |Run(c, readings).1| == 1 <==> c.running && SomeReadingExpired(readings)
    ensures Run(c, readings).0.running <==> c.running && !SomeReadingExpired(readings)
    ensures Run(c, readings).0.auctionId == c.auctionId
    decreases |readings|
  {
    if readings != [] {
      var (next, call) := Tick(c, readings[0]);
      ExpiresAtMostOnce(next, readings[1..]);
      if call.Some? {
        StoppedCardStaysQuiet(next, readings[1..]);
        assert readings[0].total <= 0;
      } else if c.running {
        assert readings[0].total > 0;
        assert SomeReadingExpired(readings) <==> SomeReadingExpired(readings[1..]) by {
          if SomeReadingExpired(readings) {
            var i :| 0 <= i < |readings| && readings[i].total <= 0;
            assert i > 0;
            assert readings[1..][i - 1].total <= 0;
          }
          if SomeReadingExpired(readings[1..]) {
            var j :| 0 <= j < |readings[1..]| && readings[1..][j].total <= 0;
            assert readings[j + 1].total <= 0;
          }
        }
      }
    }
  }

  /** A card whose interval is stopped never changes and never calls. */
  lemma {:induction false} StoppedCardStaysQuiet(c: Card, readings: seq<Remaining>)
    requires !c.running
    ensures Run(c, readings) == (c, [])
    decreases |readings|
  {
    if readings != [] {
      assert Tick(c, readings[0]) == (c, None);
      StoppedCardStaysQuiet(c, readings[1..]);
      var none: seq<int> := [];
      assert Run(c, readings) == (c, none + none);
      assert none + none == none;
    }
  }
}
