/**
 * The panel's duration label: whole seconds shown as `minutes:seconds`, the
 * seconds zero-padded to two digits and no hour component (3661 seconds is
 * "61:01"). The decimal numeral of a non-negative integer and left padding are
 * modelled here too, since the label is built from them; `ParseDuration` reads
 * a label back and is the inverse the round-trip lemmas are about.
 */
module Duration {
  import opened Options

  predicate IsDigit(c: char) {
    '0' <= c <= '9'
  }

  predicate IsDigits(s: string) {
    forall i :: 0 <= i < |s| ==> IsDigit(s[i])
  }

  /** A numeral as an integer prints: at least one digit, no leading zero unless it is "0". */
  predicate IsCanonicalDecimal(s: string) {
    |s| >= 1 && IsDigits(s) && (s[0] == '0' ==> |s| == 1)
  }

  function DigitValue(c: char): (d: nat)
    requires IsDigit(c)
    ensures d < 10
  {
    c as int - '0' as int
  }

  function DigitChar(d: nat): (c: char)
    requires d < 10
    ensures IsDigit(c) && DigitValue(c) == d
  {
    ('0' as int + d) as char
  }

  /**
   * The shortest decimal numeral of `n`, as `toString()` prints a non-negative
   * integer that a JavaScript number holds exactly (up to 2^53).
   */
  function NatToDecimal(n: nat): (s: string)
    ensures IsCanonicalDecimal(s)
    ensures |s| == 1 <==> n < 10
  {
    if n < 10 then [DigitChar(n)] else NatToDecimal(n / 10) + [DigitChar(n % 10)]
  }

  /** The value of a string of decimal digits, most significant digit first. */
  function DecimalValue(s: string): nat
    requires IsDigits(s)
  {
    if s == [] then 0 else DecimalValue(s[..|s| - 1]) * 10 + DigitValue(s[|s| - 1])
  }

  lemma {:induction false} DecimalValueOfNatToDecimal(n: nat)
    ensures DecimalValue(NatToDecimal(n)) == n
  {
    if n >= 10 {
      var prefix := NatToDecimal(n / 10);
      assert (prefix + [DigitChar(n % 10)])[..|prefix|] == prefix;
      DecimalValueOfNatToDecimal(n / 10);
    }
  }

  lemma {:induction false} DecimalValuePositive(s: string)
    requires IsDigits(s) && |s| >= 1 && s[0] != '0'
    ensures DecimalValue(s) >= 1
  {
    if |s| > 1 {
      DecimalValuePositive(s[..|s| - 1]);
    }
  }

  lemma {:induction false} NatToDecimalOfDecimalValue(s: string)
    requires IsCanonicalDecimal(s)
    ensures NatToDecimal(DecimalValue(s)) == s
  {
    if |s| > 1 {
      var prefix := s[..|s| - 1];
      DecimalValuePositive(prefix);
      NatToDecimalOfDecimalValue(prefix);
      assert prefix + [DigitChar(DigitValue(s[|s| - 1]))] == s;
    }
  }

  /** The string's `padStart(width, fill)` for a one-character fill. */
  function PadStart(s: string, width: nat, fill: char): (r: string)
    ensures |r| == if |s| < width then width else |s|
    ensures r[|r| - |s|..] == s
    ensures forall i :: 0 <= i < |r| - |s| ==> r[i] == fill
  {
    if |s| < width then seq(width - |s|, _ => fill) + s else s
  }

  /** The label the panel shows for a track of `seconds` seconds. */
  function FormatDuration(seconds: nat): string {
    NatToDecimal(seconds / 60) + ":" + PadStart(NatToDecimal(seconds % 60), 2, '0')
  }

  /** The two-digit decimal form of a number below 100. */
  function TwoDigits(n: nat): (s: string)
    requires n < 100
    ensures |s| == 2 && IsDigits(s)
  {
    [DigitChar(n / 10), DigitChar(n % 10)]
  }

  /**
   * The seconds field is always exactly two digits, and padding adds a single
   * '0' when the remainder is below ten and nothing otherwise.
   */
  lemma SecondsFieldIsTwoDigits(n: nat)
    requires n < 60
    ensures PadStart(NatToDecimal(n), 2, '0') == TwoDigits(n)
    ensures |NatToDecimal(n)| == if n < 10 then 1 else 2
  {
    if n >= 10 {
      assert NatToDecimal(n / 10) == [DigitChar(n / 10)];
    }
  }

  /** The label is the minutes numeral (unbounded: no hour rollover), a colon and two seconds digits. */
  lemma FormatDurationShape(seconds: nat)
    ensures FormatDuration(seconds) == NatToDecimal(seconds / 60) + ":" + TwoDigits(seconds % 60)
  {
    SecondsFieldIsTwoDigits(seconds % 60);
  }

  /** Reads a label back: digits, a colon, then two digits below 60; the total seconds. */
  function ParseDuration(shown: string): Option<nat> {
    if |shown| >= 4 && shown[|shown| - 3] == ':'
       && IsDigits(shown[..|shown| - 3]) && IsDigits(shown[|shown| - 2..])
       && DecimalValue(shown[|shown| - 2..]) < 60
    then Some(DecimalValue(shown[..|shown| - 3]) * 60 + DecimalValue(shown[|shown| - 2..]))
    else None
  }

  lemma DecimalValueOfTwoDigits(n: nat)
    requires n < 100
    ensures DecimalValue(TwoDigits(n)) == n
  {
    var s := TwoDigits(n);
    var tens := s[..1];
    assert tens[..0] == [];
    assert DecimalValue(tens) == n / 10;
    assert s[..|s| - 1] == tens;
  }

  /** A two-digit string is the two-digit form of its value. */
  lemma TwoDigitsOfDecimalValue(s: string)
    requires |s| == 2 && IsDigits(s)
    ensures DecimalValue(s) < 100 && TwoDigits(DecimalValue(s)) == s
  {
    var tens := s[..1];
    assert tens[..0] == [];
    assert tens[0] == s[0] && DecimalValue(tens) == DigitValue(s[0]);
    assert s[..|s| - 1] == tens;
    assert DecimalValue(s) == DigitValue(s[0]) * 10 + DigitValue(s[1]);
  }

  /** Parsing a label built from a minutes field, a colon and a two-digit seconds field. */
  lemma ParseDurationOfParts(minutes: string, secs: string)
    requires |minutes| >= 1 && IsDigits(minutes)
    requires |secs| == 2 && IsDigits(secs) && DecimalValue(secs) < 60
    ensures ParseDuration(minutes + ":" + secs) == Some(DecimalValue(minutes) * 60 + DecimalValue(secs))
  {
    var shown := minutes + ":" + secs;
    var n := |shown|;
    assert n == |minutes| + 3 && shown[n - 3] == ':';
    assert shown[..n - 3] == minutes by {
      assert forall i :: 0 <= i < |minutes| ==> shown[i] == minutes[i];
    }
    assert shown[n - 2..] == secs by {
      assert shown[n - 2] == secs[0] && shown[n - 1] == secs[1];
    }
  }

  lemma MinutesAndSeconds(m: nat, s: nat)
    requires s < 60
    ensures (m * 60 + s) / 60 == m && (m * 60 + s) % 60 == s
  {
  }

  /** Parsing a label gives back the seconds it was made from. */
  lemma ParseFormatRoundTrip(seconds: nat)
    ensures ParseDuration(FormatDuration(seconds)) == Some(seconds)
  {
    var minutes, secs := NatToDecimal(seconds / 60), TwoDigits(seconds % 60);
    var shown := FormatDuration(seconds);
    assert shown == minutes + ":" + secs by {
      FormatDurationShape(seconds);
    }
    DecimalValueOfTwoDigits(seconds % 60);
    var total := DecimalValue(minutes) * 60 + DecimalValue(secs);
    assert total == seconds by {
      DecimalValueOfNatToDecimal(seconds / 60);
    }
    ParseDurationOfParts(minutes, secs);
  }

  /** Every label that parses, with a minutes field as an integer prints, is the label of its value. */
  lemma FormatParseRoundTrip(shown: string)
    requires ParseDuration(shown).Some?
    requires IsCanonicalDecimal(shown[..|shown| - 3])
    ensures FormatDuration(ParseDuration(shown).value) == shown
  {
    var minutes, secs := shown[..|shown| - 3], shown[|shown| - 2..];
    assert shown == minutes + ":" + secs by {
      assert shown == minutes + [shown[|shown| - 3]] + secs;
    }
    TwoDigitsOfDecimalValue(secs);
    ParseDurationOfParts(minutes, secs);
    var total := DecimalValue(minutes) * 60 + DecimalValue(secs);
    assert ParseDuration(shown).value == total;
    MinutesAndSeconds(DecimalValue(minutes), DecimalValue(secs));
    NatToDecimalOfDecimalValue(minutes);
    assert NatToDecimal(total / 60) == minutes;
    assert TwoDigits(total % 60) == secs;
    FormatDurationShape(total);
    assert FormatDuration(total) == minutes + ":" + secs;
  }

  /** Distinct durations never share a label. */
  lemma FormatDurationInjective(a: nat, b: nat)
    requires FormatDuration(a) == FormatDuration(b)
    ensures a == b
  {
    ParseFormatRoundTrip(a);
    ParseFormatRoundTrip(b);
  }

  lemma FormatDurationExamples()
    ensures FormatDuration(0) == "0:00"
    ensures FormatDuration(65) == "1:05"
    ensures FormatDuration(3661) == "61:01"
  {
    FormatDurationShape(0);
    FormatDurationShape(65);
    FormatDurationShape(3661);
    assert NatToDecimal(61) == NatToDecimal(6) + [DigitChar(1)];
  }
}
