/** The `offsetEntryLeave` text: the time between a person's last leave and
    last entry, taken from the last-change times of the two time slots. */
module Offset {
  import opened Numbers
  import opened Strings
  import opened StateStore

  /** The whole hours the script reads off the text of the difference `d`
      (in milliseconds) converted to hours, the division taken exactly: the
      part of the text before its first '.', parsed as an integer.
      - a whole number of hours is written without '.', so the part read is
        empty and the result is NaN;
      - below 1e-6 hours (1 to 3 ms) the text is in exponent notation such as
        "2.7777777777777776e-7", and the digit before '.' is read, which is
        the integer part of 25 * d / 9;
      - otherwise the digits before '.' are the whole hours. */
  function TruncatedHours(d: nat): (h: JsNumber)
    ensures h.NaN? <==> d % 3600000 == 0
  {
    if d % 3600000 == 0 then NaN
    else if d < 4 then Finite(25 * d / 9)
    else Finite(d / 3600000)
  }

  /** The minutes: what is left of the difference after the whole hours,
      in minutes, rounded to the nearest integer with halves upwards. */
  function JustMinutes(d: nat, hours: JsNumber): JsNumber
  {
    match hours
    case NaN => NaN
    case Finite(k) => Finite((d - 3600000 * k + 30000) / 60000)
  }

  /** The HH:MM text: hours and minutes, each padded to two digits, around
      ':'. */
  function HoursMinutesText(d: nat): string
  {
    var hours := TruncatedHours(d);
    ZeroPad(NumberText(hours), 2) + ":" + ZeroPad(NumberText(JustMinutes(d, hours)), 2)
  }

  /** The difference rounded to the nearest whole hour, halves upwards. */
  function RoundedHours(d: nat): nat
  {
    (d + 1800000) / 3600000
  }

  function Abs(x: int): nat { if x < 0 then -x else x }

  /** The offset text for the two last-change times. A missing slot has no
      last-change time; the difference is then NaN, which both formats write
      as "NaN". */
  function OffsetText(hoursAndMins: bool, lcLeave: Option<int>, lcEntry: Option<int>): string
  {
    if lcLeave.None? || lcEntry.None? then (if hoursAndMins then "NaN:NaN" else "NaN")
    else
      var d := Abs(lcLeave.value - lcEntry.value);
      if hoursAndMins then HoursMinutesText(d) else NatToString(RoundedHours(d))
  }

  /** The value written to `persons.<name>.offsetEntryLeave` after the person's
      other slots were updated: an offset only when the time slot of the
      opposite direction holds something (the leave time for a present
      person, the entry time for an absent one), the empty string otherwise. */
  function OffsetFor(hoursAndMins: bool, present: bool, st: Store, name: string): (r: string)
    ensures !IsEmpty(ValOf(st, Person(name, if present then TimeLastLeave else TimeLastEntry))) ==>
              r == OffsetText(hoursAndMins, LcOf(st, Person(name, TimeLastLeave)), LcOf(st, Person(name, TimeLastEntry)))
    ensures IsEmpty(ValOf(st, Person(name, if present then TimeLastLeave else TimeLastEntry))) ==> r == ""
  {
    var leave := Person(name, TimeLastLeave);
    var entry := Person(name, TimeLastEntry);
    if (!IsEmpty(ValOf(st, leave)) && present) || (!IsEmpty(ValOf(st, entry)) && !present) then
      OffsetText(hoursAndMins, LcOf(st, leave), LcOf(st, entry))
    else
      ""
  }

  lemma MulMono(a: int, b: int, k: int)
    requires a <= b && k >= 0
    ensures a * k <= b * k
  {
    assert b * k - a * k == (b - a) * k;
  }

  lemma DivUnique(n: int, q: int, k: int)
    requires k > 0 && q * k <= n < q * k + k
    ensures n / k == q
  {
    var q', r := n / k, n % k;
    assert n == q' * k + r && 0 <= r < k;
    if q' < q {
      MulMono(q' + 1, q, k);
      assert false;
    } else if q' > q {
      MulMono(q + 1, q', k);
      assert false;
    }
  }

  lemma HoursOf(d: nat, h: nat)
    requires d % 3600000 != 0 && d >= 4
    requires h * 3600000 <= d < h * 3600000 + 3600000
    ensures TruncatedHours(d) == Finite(h)
  {
    DivUnique(d, h, 3600000);
  }

  lemma MinutesOf(d: nat, h: nat, m: int)
    requires m * 60000 - 30000 <= d - h * 3600000 < m * 60000 + 30000
    ensures JustMinutes(d, Finite(h)) == Finite(m)
  {
    DivUnique(d - 3600000 * h + 30000, m, 60000);
  }

  /** HH:MM mode away from its two artifacts: the hours are the whole hours
      (truncated) and the minutes are the rest rounded to the nearest minute,
      halves upwards, so they lie in 0..60. Any pair (h, m) with these bounds
      gives the text. */
  lemma HoursMinutesMeaning(d: nat, h: nat, m: int)
    requires d % 3600000 != 0 && d >= 4
    requires h * 3600000 <= d < (h + 1) * 3600000
    requires m * 60000 - 30000 <= d - h * 3600000 < m * 60000 + 30000
    ensures 0 <= m <= 60
    ensures HoursMinutesText(d) == ZeroPad(NatToString(h), 2) + ":" + ZeroPad(NatToString(m), 2)
  {
    HoursOf(d, h);
    MinutesOf(d, h, m);
  }

  lemma DigitsFreeOfColon(s: string)
    requires forall i :: 0 <= i < |s| ==> IsDigit(s[i])
    ensures FreeOf(s, ":")
  {
  }

  /** The HH:MM text reads back as the hours and minutes it was made from. */
  lemma HoursMinutesReadBack(h: nat, m: nat)
    ensures var t := ZeroPad(NatToString(h), 2) + ":" + ZeroPad(NatToString(m), 2);
      var parts := Split(t, ":");
      && |parts| == 2
      && (forall i :: 0 <= i < |parts[0]| ==> IsDigit(parts[0][i])) && DecimalValue(parts[0]) == h
      && (forall i :: 0 <= i < |parts[1]| ==> IsDigit(parts[1][i])) && DecimalValue(parts[1]) == m
  {
    var a := ZeroPad(NatToString(h), 2);
    var b := ZeroPad(NatToString(m), 2);
    ZeroPadKeepsValue(h, 2);
    ZeroPadKeepsValue(m, 2);
    DigitsFreeOfColon(a);
    DigitsFreeOfColon(b);
    SplitTwo(a, b, ":");
  }

  /** Two pieces free of the separator around it split back into the two. */
  lemma SplitTwo(a: string, b: string, sep: string)
    requires sep != "" && FreeOf(a, sep) && FreeOf(b, sep)
    ensures Split(a + sep + b, sep) == [a, b]
  {
    SplitPiece(a, sep, b);
    SplitAlone(b, sep);
  }

  /** Hours-only mode rounds to the nearest hour, halves upwards. */
  lemma RoundedHoursMeaning(d: nat, h: nat)
    requires h * 3600000 <= d + 1800000 < (h + 1) * 3600000
    ensures OffsetText(false, Some(d), Some(0)) == NatToString(h)
  {
    assert RoundedHours(d) == h;
  }

  /** The first artifact: a whole number of hours, zero included, has no '.'
      in its text, so HH:MM mode writes "NaN:NaN". */
  lemma WholeHoursGiveNaN(k: nat)
    ensures HoursMinutesText(k * 3600000) == "NaN:NaN"
  {
    assert (k * 3600000) % 3600000 == 0;
  }

  /** A missing slot gives "NaN" in both formats. */
  lemma MissingSlotGivesNaN(hoursAndMins: bool, t: int)
    ensures OffsetText(hoursAndMins, None, Some(t)) == (if hoursAndMins then "NaN:NaN" else "NaN")
    ensures OffsetText(hoursAndMins, Some(t), None) == (if hoursAndMins then "NaN:NaN" else "NaN")
  {
  }

  /** The second artifact: 1 ms is 2.7777777777777776e-7 hours; the digit
      before '.' is 2, and the minutes become round((2.78e-7 - 2) * 60) = -120. */
  lemma ExponentArtifact()
    ensures HoursMinutesText(1) == "02:-120"
  {
    assert TruncatedHours(1) == Finite(2);
    assert JustMinutes(1, Finite(2)) == Finite(-120);
    assert NatToString(2) == "2";
    assert NatToString(120) == "120" by {
      assert NatToString(12) == "12";
    }
  }

  /** The minutes can round up to 60: 59 minutes 59.999 seconds give "00:60". */
  lemma SixtyMinutes()
    ensures HoursMinutesText(3599999) == "00:60"
  {
    assert TruncatedHours(3599999) == Finite(0);
    assert JustMinutes(3599999, Finite(0)) == Finite(60);
    assert NatToString(0) == "0";
    assert NatToString(60) == "60";
  }

  lemma TwoAndFortySix()
    ensures ZeroPad(NatToString(2), 2) == "02" && ZeroPad(NatToString(46), 2) == "46"
  {
    assert NatToString(2) == "2";
    assert NatToString(46) == "46" by { assert NatToString(4) == "4"; }
    assert Zeros(1) == "0";
  }

  lemma Concat0246()
    ensures "02" + ":" + "46" == "02:46"
  {
    assert "02" + ":" == "02:";
  }

  lemma HoursMinutes0246()
    ensures HoursMinutesText(9960000) == "02:46"
  {
    HoursMinutesMeaning(9960000, 2, 46);
    TwoAndFortySix();
    Concat0246();
  }

  /** 2 hours 46 minutes between leave and entry: "02:46" in HH:MM mode and
      "3" in hours-only mode. */
  lemma TwoHoursFortySix(t0: int)
    ensures OffsetText(true, Some(t0), Some(t0 + 9960000)) == "02:46"
    ensures OffsetText(false, Some(t0), Some(t0 + 9960000)) == "3"
  {
    OffsetOfGap(true, t0, 9960000);
    OffsetOfGap(false, t0, 9960000);
    HoursMinutes0246();
    ThreeHours();
  }

  /** Two times `d` apart give the offset of `d`. */
  lemma OffsetOfGap(hoursAndMins: bool, t0: int, d: nat)
    ensures OffsetText(hoursAndMins, Some(t0), Some(t0 + d))
         == if hoursAndMins then HoursMinutesText(d) else NatToString(RoundedHours(d))
  {
    assert Abs(t0 - (t0 + d)) == d;
  }

  lemma ThreeHours()
    ensures NatToString(RoundedHours(9960000)) == "3"
  {
    assert RoundedHours(9960000) == 3;
    assert NatToString(3) == "3";
  }
}
