/** `displayCountDownDate(d, h, m, s)`: "<d> days <hh>:<mm>:<ss>", where an
    hour, minute or second below 10 gets one leading '0' and days are never
    padded. The values are JavaScript numbers; whole numbers are modelled.
 */
module CountdownDisplay {
  import opened Wrappers
  import opened Text

  /** `x < 10 ? '0' + x : x`. A negative value is below 10 too, so it gets
      the '0' before its minus sign. */
  function Pad(x: int): (r: string)
    ensures 0 <= x < 10 ==> |r| == 2 && r[0] == '0' && IsDigit(r[1]) && DigitValue(r[1]) == x
    ensures x < 0 ==> |r| >= 3 && r[..2] == "0-"
    ensures 10 <= x ==> r == IntToString(x)
    ensures 0 <= x ==> AllDigits(r)
  {
    DigitRoundTrip(if 0 <= x < 10 then x else 0);
    if x < 10 then "0" + IntToString(x) else IntToString(x)
  }

  function DisplayCountDown(d: int, h: int, m: int, s: int): (r: string)
    ensures 0 <= h <= 99 && 0 <= m <= 99 && 0 <= s <= 99 ==> |r| == |IntToString(d)| + 14
  {
    FieldWidth(h);
    FieldWidth(m);
    FieldWidth(s);
    IntToString(d) + " days " + Pad(h) + ":" + Pad(m) + ":" + Pad(s)
  }

  /** Every time field from 0 to 99 is exactly two digits, and reads back as
      its value. */
  lemma FieldWidth(x: int)
    ensures 0 <= x <= 99 ==> |Pad(x)| == 2 && AllDigits(Pad(x))
    ensures 0 <= x <= 99 ==> DigitsValue(Pad(x)) == x
  {
    var p := Pad(x);
    if x < 0 || 99 < x {
    } else if x < 10 {
      assert p[..1] == "0";
      assert DigitsValue(p[..1]) == 0 by {
        assert p[..1][..0] == [];
      }
    } else {
      NatToStringRoundTrip(x);
    }
  }

  datatype Parts = Parts(days: nat, hours: nat, minutes: nat, seconds: nat)

  /** Reads a countdown string back: the last fourteen characters must be
      " days hh:mm:ss" and everything before them a decimal day count. */
  function ParseCountDown(t: string): (r: Option<Parts>)
    ensures r.Some? ==> |t| >= 15 && t[|t| - 14..|t| - 8] == " days "
    ensures r.Some? ==> r.value.hours <= 99 && r.value.minutes <= 99 && r.value.seconds <= 99
  {
    if |t| < 15 then None
    else
      var n := |t|;
      var days := t[..n - 14];
      var hh := t[n - 8..n - 6];
      var mm := t[n - 5..n - 3];
      var ss := t[n - 2..];
      if t[n - 14..n - 8] == " days " && t[n - 6] == ':' && t[n - 3] == ':'
         && AllDigits(days) && AllDigits(hh) && AllDigits(mm) && AllDigits(ss)
      then
        TwoDigitsBelowHundred(hh);
        TwoDigitsBelowHundred(mm);
        TwoDigitsBelowHundred(ss);
        Some(Parts(DigitsValue(days), DigitsValue(hh), DigitsValue(mm), DigitsValue(ss)))
      else None
  }

  lemma TwoDigitsBelowHundred(s: string)
    requires |s| == 2 && AllDigits(s)
    ensures DigitsValue(s) <= 99
  {
    var first := s[..1];
    assert first[..0] == [];
    assert DigitsValue(first) == DigitValue(s[0]);
    assert DigitsValue(s) == DigitsValue(first) * 10 + DigitValue(s[1]);
  }

  /** Where the pieces of a countdown string sit, counted from its end. */
  lemma Layout(ds: string, ph: string, pm: string, ps: string)
    requires |ph| == 2 && |pm| == 2 && |ps| == 2
    ensures var t := ds + " days " + ph + ":" + pm + ":" + ps;
      var n := |t|;
      n == |ds| + 14 &&
      t[..n - 14] == ds && t[n - 14..n - 8] == " days " &&
      t[n - 8..n - 6] == ph && t[n - 6] == ':' &&
      t[n - 5..n - 3] == pm && t[n - 3] == ':' && t[n - 2..] == ps
  {
  }

  /** The countdown string of whole numbers with every time field at most
      99 parses back to the same four numbers. */
  lemma RoundTrip(d: nat, h: nat, m: nat, s: nat)
    requires h <= 99 && m <= 99 && s <= 99
    ensures ParseCountDown(DisplayCountDown(d, h, m, s)) == Some(Parts(d, h, m, s))
  {
    var t := DisplayCountDown(d, h, m, s);
    var ds := IntToString(d);
    FieldWidth(h);
    FieldWidth(m);
    FieldWidth(s);
    NatToStringRoundTrip(d);
    Layout(ds, Pad(h), Pad(m), Pad(s));
  }

  /** A negative field, which the card can show before its first tick,
      renders with a '0' before the minus sign. */
  lemma NegativeFieldShowsZeroMinus(x: int)
    requires x < 0
    ensures Pad(x) == "0" + IntToString(x)
    ensures Pad(x)[..2] == "0-"
  {
  }
}
