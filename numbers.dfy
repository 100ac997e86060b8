/** Decimal text of numbers as JavaScript's `toString` writes it, and the
    `zeroPad` helper of the presence script. */
module Numbers {

  /** A JavaScript number as far as the script uses one: an integer or NaN. */
  datatype JsNumber = Finite(i: int) | NaN

  predicate IsDigit(c: char) { '0' <= c <= '9' }

  function DigitValue(c: char): (k: nat)
    requires IsDigit(c)
    ensures k < 10
  {
    c as int - '0' as int
  }

  function DigitChar(k: nat): (c: char)
    requires k < 10
    ensures IsDigit(c)
  {
    '0' + k as char
  }

  /** The decimal text of a natural number, without leading zeros. */
  function NatToString(n: nat): (s: string)
    ensures |s| > 0
    ensures forall i :: 0 <= i < |s| ==> IsDigit(s[i])
    ensures s[0] == '0' ==> n == 0 && s == "0"
    decreases n
  {
    if n < 10 then [DigitChar(n)] else NatToString(n / 10) + [DigitChar(n % 10)]
  }

  /** The value of a string of decimal digits (most significant first). */
  function DecimalValue(s: string): nat
    requires forall i :: 0 <= i < |s| ==> IsDigit(s[i])
  {
    if s == [] then 0
    else 10 * DecimalValue(s[..|s| - 1]) + DigitValue(s[|s| - 1])
  }

  /** Reading back the decimal text gives the number again. */
  lemma {:induction false} DecimalRoundTrip(n: nat)
    ensures DecimalValue(NatToString(n)) == n
    decreases n
  {
    var s := NatToString(n);
    if n >= 10 {
      DecimalRoundTrip(n / 10);
      assert s[..|s| - 1] == NatToString(n / 10);
    }
  }

  /** Two numbers with the same text are the same number. */
  lemma NatToStringInjective(m: nat, n: nat)
    requires NatToString(m) == NatToString(n)
    ensures m == n
  {
    DecimalRoundTrip(m);
    DecimalRoundTrip(n);
  }

  /** JavaScript's text of an integer number or of NaN. */
  function NumberText(x: JsNumber): (s: string)
    ensures x.NaN? ==> s == "NaN"
    ensures x.Finite? && x.i >= 0 ==> s == NatToString(x.i)
    ensures x.Finite? && x.i < 0 ==> s == "-" + NatToString(-x.i)
  {
    match x
    case NaN => "NaN"
    case Finite(i) => if i < 0 then "-" + NatToString(-i) else NatToString(i)
  }

  /** `k` copies of the character '0'. */
  function Zeros(k: nat): (z: string)
    ensures |z| == k
    ensures forall i :: 0 <= i < k ==> z[i] == '0'
  {
    if k == 0 then "" else Zeros(k - 1) + "0"
  }

  /** `zeroPad(num, places)` applied to the text `num` of a number: a text
      shorter than `places` gets zeros in front until it is `places` long; a
      text at least that long is returned as it is. */
  function ZeroPad(num: string, places: int): (r: string)
    ensures |r| == if places > |num| then places else |num|
    ensures r[|r| - |num|..] == num
    ensures forall i :: 0 <= i < |r| - |num| ==> r[i] == '0'
  {
    var zero := places - |num| + 1;
    var pad := if zero > 0 then Zeros(zero - 1) else "";
    pad + num
  }

  /** Padding a number's text never changes the number it denotes. */
  lemma {:induction false} ZeroPadKeepsValue(n: nat, places: int)
    ensures var r := ZeroPad(NatToString(n), places);
      (forall i :: 0 <= i < |r| ==> IsDigit(r[i])) && DecimalValue(r) == n
  {
    var s := NatToString(n);
    var r := ZeroPad(s, places);
    var k := |r| - |s|;
    assert r == Zeros(k) + s;
    LeadingZerosValue(k, s);
    DecimalRoundTrip(n);
  }

  lemma {:induction false} LeadingZerosValue(k: nat, s: string)
    requires forall i :: 0 <= i < |s| ==> IsDigit(s[i])
    ensures forall i :: 0 <= i < |Zeros(k) + s| ==> IsDigit((Zeros(k) + s)[i])
    ensures DecimalValue(Zeros(k) + s) == DecimalValue(s)
    decreases |s|
  {
    var z := Zeros(k);
    if s == [] {
      assert z + s == z;
      ZerosValue(k);
    } else {
      var t := s[..|s| - 1];
      LeadingZerosValue(k, t);
      assert (z + s)[..|z + s| - 1] == z + t;
    }
  }

  lemma {:induction false} ZerosValue(k: nat)
    ensures DecimalValue(Zeros(k)) == 0
  {
    if k > 0 {
      ZerosValue(k - 1);
      assert Zeros(k)[..k - 1] == Zeros(k - 1);
    }
  }

  /** The examples given in the script's documentation of `zeroPad`. */
  lemma ZeroPadExamples()
    ensures ZeroPad(NatToString(5), 4) == "0005"
    ensures ZeroPad(NatToString(1234), 2) == "1234"
    ensures ZeroPad("5", 6) == "000005"
  {
    SmallTexts();
    assert Zeros(3) == "000";
    assert Zeros(5) == "00000";
  }

  lemma SmallTexts()
    ensures NatToString(5) == "5" && NatToString(1234) == "1234"
  {
    assert NatToString(1) == "1";
    assert NatToString(12) == "12";
    assert NatToString(123) == "123";
  }
}
