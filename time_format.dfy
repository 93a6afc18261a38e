/**
 * `formatTime(s)` of main.js: "00:00" for a falsy argument, otherwise the
 * unpadded minutes, a colon, and the seconds left-padded to two characters.
 */
module TimeFormat {
  import opened Wrappers
  import opened Decimal

  /**
   * JavaScript's `%`: the remainder takes the sign of the dividend.
   * (Dafny's `%` is Euclidean; for a positive divisor Dafny's `/` is `Math.floor` of the quotient.)
   */
  function JsRem(a: int, d: int): (r: int)
    requires d > 0
    ensures r == a - d * (if a >= 0 then a / d else -((-a) / d))
    ensures a >= 0 ==> 0 <= r < d && r == a % d
    ensures a < 0 ==> -d < r <= 0
  {
    if a >= 0 then a % d
    else
      assert -a == d * ((-a) / d) + (-a) % d;
      -((-a) % d)
  }

  /** `s.padStart(2, '0')`: zeros in front until the text is two characters long. */
  function PadStart2(s: string): (r: string)
    ensures |r| == if |s| >= 2 then |s| else 2
    ensures |s| >= 2 ==> r == s
    ensures forall i :: 0 <= i < |r| - |s| ==> r[i] == '0'
  {
    if |s| >= 2 then s
    else if |s| == 1 then "0" + s
    else "00"
  }

  /** The padded text ends with the original text, behind the '0' fill. */
  lemma PadStart2Suffix(s: string)
    ensures var r := PadStart2(s);
      |s| <= |r| && r[|r| - |s|..] == s
  {
  }

  function FormatTime(s: Option<int>): string {
    if s.None? || s.value == 0 then "00:00"
    else IntToString(s.value / 60) + ":" + PadStart2(IntToString(JsRem(s.value, 60)))
  }

  /** Reads "M:SS" back as a number of seconds: M any digits, SS two digits below 60. */
  function ParseClock(r: string): Option<nat> {
    if |r| < 4 || r[|r| - 3] != ':' then None
    else
      var minutes, seconds := r[..|r| - 3], r[|r| - 2..];
      if AllDigits(minutes) && AllDigits(seconds) && DigitsValue(seconds) < 60
      then Some(DigitsValue(minutes) * 60 + DigitsValue(seconds))
      else None
  }

  /** Padding a one- or two-digit string keeps its value and gives exactly two digits. */
  lemma PadStart2Digits(t: string)
    requires AllDigits(t) && 1 <= |t| <= 2
    ensures |PadStart2(t)| == 2 && AllDigits(PadStart2(t))
    ensures DigitsValue(PadStart2(t)) == DigitsValue(t)
  {
    if |t| == 1 {
      var p := PadStart2(t);
      assert p == "0" + t;
      assert p[..1] == "0";
      assert DigitsValue(p[..1]) == 0 by {
        assert p[..1][..0] == [];
      }
      assert DigitsValue(t) == DigitValue(t[0]) by {
        assert t[..0] == [];
      }
    }
  }

  /** For a positive time both halves are the unsigned decimals of the minutes and the remainder. */
  lemma FormatTimePositive(s: nat)
    requires s > 0
    ensures FormatTime(Some(s)) == NatToString(s / 60) + ":" + PadStart2(NatToString(s % 60))
  {
    assert JsRem(s, 60) == s % 60;
    assert IntToString(s / 60) == NatToString(s / 60);
    assert IntToString(s % 60) == NatToString(s % 60);
  }

  /**
   * For a positive whole number of seconds, the text after the colon is
   * exactly two digits denoting `s mod 60`, and the text before it is the
   * unpadded decimal of `floor(s / 60)`.
   */
  lemma FormatTimeFields(s: nat)
    requires s > 0
    ensures var r := FormatTime(Some(s));
      && |r| >= 4 && r[|r| - 3] == ':'
      && r[..|r| - 3] == NatToString(s / 60)
      && AllDigits(r[|r| - 2..]) && DigitsValue(r[|r| - 2..]) == s % 60 < 60
  {
    var m, sec := NatToString(s / 60), NatToString(s % 60);
    NatToStringBelow100(s % 60);
    NatToStringRoundTrip(s % 60);
    PadStart2Digits(sec);
    var p := PadStart2(sec);
    FormatTimePositive(s);
    var r := m + ":" + p;
    assert r[..|r| - 3] == m;
    assert r[|r| - 2..] == p;
  }

  /** Round trip: the formatted text of a positive time reads back as that time. */
  lemma FormatTimeRoundTrip(s: nat)
    requires s > 0
    ensures ParseClock(FormatTime(Some(s))) == Some(s)
  {
    FormatTimeFields(s);
    NatToStringRoundTrip(s / 60);
    var r := FormatTime(Some(s));
    assert DigitsValue(r[..|r| - 3]) * 60 + DigitsValue(r[|r| - 2..]) == s;
  }

  /**
   * At least four characters; a leading minus exactly for a negative time;
   * for a time that is absent or non-negative, the colon is third from the end.
   */
  lemma FormatTimeShape(s: Option<int>)
    ensures var r := FormatTime(s);
      && |r| >= 4
      && (r[0] == '-' <==> s.Some? && s.value < 0)
      && (s.None? || s.value >= 0 ==> r[|r| - 3] == ':')
  {
    if s.Some? && s.value > 0 {
      FormatTimeFields(s.value);
      FormatTimePositive(s.value);
    } else if s.Some? && s.value < 0 {
      var r := FormatTime(s);
      assert r[0] == IntToString(s.value / 60)[0];
    }
  }

  /** "00:00" comes out exactly for the falsy arguments: absent or zero. */
  lemma FormatTimeZeroIff(s: Option<int>)
    ensures FormatTime(s) == "00:00" <==> s.None? || s.value == 0
  {
    if s.Some? && s.value > 0 {
      FormatTimeFields(s.value);
      NatToStringRoundTrip(s.value / 60);
      var r, m := FormatTime(s), NatToString(s.value / 60);
      assert r[0] == m[0] && |r| == |m| + 3;
      assert |r| != 5 || r[0] != '0';
    } else if s.Some? && s.value < 0 {
      var r := FormatTime(s);
      assert r[0] == IntToString(s.value / 60)[0] == '-';
    }
  }

  /** Under ten seconds a time renders as "0:0" and its digit. */
  lemma FormatTimeUnderTen(s: nat)
    requires 0 < s < 10
    ensures FormatTime(Some(s)) == "0:0" + [DigitChar(s)]
  {
    assert s / 60 == 0 && JsRem(s, 60) == s;
    assert PadStart2([DigitChar(s)]) == "0" + [DigitChar(s)];
  }

  /** Values computed by hand from the JavaScript semantics. */
  lemma FormatTimeExamples()
    ensures FormatTime(None) == "00:00"
    ensures FormatTime(Some(0)) == "00:00"
    ensures FormatTime(Some(65)) == "1:05"
    ensures FormatTime(Some(3661)) == "61:01"
    ensures FormatTime(Some(-5)) == "-1:-5"
  {
    FormatTimeSixtyFive();
    FormatTimeHourAndMore();
    FormatTimeMinusFive();
  }

  lemma FormatTimeSixtyFive()
    ensures FormatTime(Some(65)) == "1:05"
  {
    FormatTimePositive(65);
    assert NatToString(65 / 60) == "1";
    assert PadStart2(NatToString(65 % 60)) == "05";
  }

  lemma FormatTimeHourAndMore()
    ensures FormatTime(Some(3661)) == "61:01"
  {
    FormatTimePositive(3661);
    assert NatToString(3661 / 60) == "61";
    assert PadStart2(NatToString(3661 % 60)) == "01";
  }

  lemma FormatTimeMinusFive()
    ensures FormatTime(Some(-5)) == "-1:-5"
  {
    assert -5 / 60 == -1 && JsRem(-5, 60) == -5;
    assert IntToString(-1) == "-1" && IntToString(-5) == "-5";
  }
}
