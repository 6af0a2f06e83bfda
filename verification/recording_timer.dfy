/**
 * The recording timer text of the browser client (`formatTime` in `App`):
 * whole seconds shown as minutes and seconds, each at least two decimal
 * digits, separated by a colon.
 */
module RecordingTimer {
  import opened Wrappers

  predicate IsDigit(c: char)
  {
    '0' <= c <= '9'
  }

  ghost predicate AllDigits(s: string)
  {
    forall k :: 0 <= k < |s| ==> IsDigit(s[k])
  }

  /** The value of a decimal digit (0 for any other character). */
  function DigitValue(c: char): (d: nat)
    ensures d < 10
  {
    if IsDigit(c) then c as int - '0' as int else 0
  }

  /** `s` is a string of decimal digits whose value is `v`. */
  ghost predicate Shows(s: string, v: nat)
  {
    AllDigits(s) && ParseDecimal(s) == v
  }

  /** `Number.prototype.toString()` of a natural number: its decimal
      digits, with no leading zero. */
  function Decimal(n: nat): (r: string)
    ensures r != []
  {
    var last := ['0' + (n % 10) as char];
    if n < 10 then last else Decimal(n / 10) + last
  }

  /** The decimal text is all digits, with no leading zero. */
  lemma {:induction false} DecimalDigits(n: nat)
    ensures AllDigits(Decimal(n))
    ensures |Decimal(n)| > 1 ==> Decimal(n)[0] != '0'
  {
    if n >= 10 {
      DecimalDigits(n / 10);
    }
  }

  /** The value of a string of decimal digits (leading zeros allowed). */
  function ParseDecimal(s: string): nat
  {
    if s == [] then 0 else 10 * ParseDecimal(s[..|s| - 1]) + DigitValue(s[|s| - 1])
  }

  lemma {:induction false} DecimalRoundTrip(n: nat)
    ensures ParseDecimal(Decimal(n)) == n
  {
    var r := Decimal(n);
    if n >= 10 {
      assert r[..|r| - 1] == Decimal(n / 10);
      DecimalRoundTrip(n / 10);
    }
  }

  /** A leading zero does not change the value. */
  lemma {:induction false} LeadingZero(s: string)
    ensures ParseDecimal(['0'] + s) == ParseDecimal(s)
  {
    if s != [] {
      assert (['0'] + s)[..|s|] == ['0'] + s[..|s| - 1];
      LeadingZero(s[..|s| - 1]);
    }
  }

  /** `s.padStart(width, fill)` with a one-character fill. */
  function PadStart(s: string, width: nat, fill: char): (r: string)
    ensures |r| == if |s| >= width then |s| else width
    decreases width - |s|
  {
    if |s| >= width then s else PadStart([fill] + s, width, fill)
  }

  /** The padded text ends in the text and is filled in front. */
  lemma {:induction false} PadStartShape(s: string, width: nat, fill: char)
    ensures var r := PadStart(s, width, fill);
            r[|r| - |s|..] == s && forall k :: 0 <= k < |r| - |s| ==> r[k] == fill
    decreases width - |s|
  {
    if |s| < width {
      PadStartShape([fill] + s, width, fill);
    }
  }

  /** Zero-padded decimal text is still the number it pads. */
  lemma {:induction false} PadStartKeepsValue(s: string, width: nat)
    requires AllDigits(s)
    ensures AllDigits(PadStart(s, width, '0'))
    ensures ParseDecimal(PadStart(s, width, '0')) == ParseDecimal(s)
    decreases width - |s|
  {
    if |s| < width {
      LeadingZero(s);
      PadStartKeepsValue(['0'] + s, width);
    }
  }

  /** `formatTime(seconds)`: minutes (`Math.floor(seconds / 60)`) and
      seconds (`seconds % 60`), each padded to two digits. */
  function FormatTime(seconds: nat): string
  {
    Field(seconds / 60) + ":" + Field(seconds % 60)
  }

  /** One field of the timer: `value.toString().padStart(2, '0')`. */
  function Field(value: nat): string
  {
    PadStart(Decimal(value), 2, '0')
  }

  /** Reads an `M…M:SS` text back: at least two minute digits, exactly two
      second digits below 60. */
  function ParseTime(text: string): (r: Option<nat>)
    ensures r.Some? ==> |text| >= 5 && text[|text| - 3] == ':'
  {
    if |text| < 5 || text[|text| - 3] != ':' then None
    else
      var minutes, secs := text[..|text| - 3], text[|text| - 2..];
      if !(forall k :: 0 <= k < |minutes| ==> IsDigit(minutes[k]))
         || !IsDigit(secs[0]) || !IsDigit(secs[1])
         || ParseDecimal(secs) >= 60
      then None
      else Some(60 * ParseDecimal(minutes) + ParseDecimal(secs))
  }

  /** Numbers below 100 have at most two decimal digits. */
  lemma DecimalBelow100(x: nat)
    requires x < 100
    ensures |Decimal(x)| <= 2
  {
    if x >= 10 {
      assert |Decimal(x / 10)| == 1;
    }
  }

  /** A number padded to two digits: at least two digits, exactly two
      below 100, and the same value. */
  lemma PaddedDecimal(x: nat)
    ensures |Field(x)| >= 2 && (x < 100 ==> |Field(x)| == 2) && Shows(Field(x), x)
  {
    if x < 100 {
      DecimalBelow100(x);
    }
    DecimalRoundTrip(x);
    DecimalDigits(x);
    PadStartKeepsValue(Decimal(x), 2);
  }

  /** Two digit fields joined by a colon can be found again from the end. */
  lemma JoinFields(m: string, s: string, mv: nat, sv: nat)
    requires |m| >= 2 && |s| == 2 && Shows(m, mv) && Shows(s, sv)
    ensures var t := m + ":" + s;
            |t| >= 5 && t[|t| - 3] == ':'
            && Shows(t[..|t| - 3], mv) && Shows(t[|t| - 2..], sv)
  {
    var t := m + ":" + s;
    assert t[..|t| - 3] == m;
    assert t[|t| - 2..] == s;
  }

  /** The minutes and the seconds field, joined, for any pair of values
      with the seconds below 100. */
  lemma JoinedFields(mv: nat, sv: nat)
    requires sv < 100
    ensures var t := Field(mv) + ":" + Field(sv);
            |t| >= 5 && t[|t| - 3] == ':'
            && Shows(t[..|t| - 3], mv) && Shows(t[|t| - 2..], sv)
  {
    PaddedDecimal(mv);
    PaddedDecimal(sv);
    JoinFields(Field(mv), Field(sv), mv, sv);
  }

  /** The text has a two-digit seconds field holding `seconds % 60`
      (00 to 59) and a minutes field of at least two digits holding the
      whole number of minutes, never cut short. */
  lemma FormatTimeFields(seconds: nat)
    ensures var text := FormatTime(seconds);
            var n := |text|;
            n >= 5 && text[n - 3] == ':'
            && Shows(text[..n - 3], seconds / 60) && Shows(text[n - 2..], seconds % 60)
  {
    JoinedFields(seconds / 60, seconds % 60);
  }

  /** Reading the text back gives the number of seconds it shows. */
  lemma FormatTimeRoundTrip(seconds: nat)
    ensures ParseTime(FormatTime(seconds)) == Some(seconds)
  {
    FormatTimeFields(seconds);
  }
}
