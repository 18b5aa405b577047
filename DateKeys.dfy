/**
 * The day key under which the statistics blob files a day's record.
 *
 * The application derives it from the current instant as the date part of
 * its ISO-8601 rendering, so one key names one UTC calendar day.  The model
 * numbers UTC days by an integer and renders the number in decimal (with a
 * leading '-' before the epoch).  The only property the stores rely on is
 * that distinct days get distinct keys, which `KeysDistinct` proves.
 */
module DateKeys {
  import opened Results

  type DateKey = string

  predicate IsDigit(c: char) {
    '0' <= c <= '9'
  }

  predicate AllDigits(s: string) {
    forall i :: 0 <= i < |s| ==> IsDigit(s[i])
  }

  function DigitValue(c: char): (d: nat)
    requires IsDigit(c)
    ensures d < 10
  {
    (c as int) - ('0' as int)
  }

  function DigitChar(d: nat): (c: char)
    requires d < 10
    ensures IsDigit(c) && DigitValue(c) == d
  {
    (('0' as int) + d) as char
  }

  /** Decimal digits of `n`, most significant first, no leading zeros. */
  function Digits(n: nat): (s: string)
    ensures |s| >= 1 && AllDigits(s)
    ensures n >= 10 ==> |s| >= 2
    decreases n
  {
    if n < 10 then [DigitChar(n)] else Digits(n / 10) + [DigitChar(n % 10)]
  }

  /** The number a non-empty digit string denotes. */
  function DigitsValue(s: string): nat
    requires |s| >= 1 && AllDigits(s)
    decreases |s|
  {
    if |s| == 1 then DigitValue(s[0])
    else DigitsValue(s[..|s| - 1]) * 10 + DigitValue(s[|s| - 1])
  }

  lemma {:induction false} DigitsRoundTrip(n: nat)
    ensures DigitsValue(Digits(n)) == n
    decreases n
  {
    if n >= 10 {
      var s := Digits(n);
      assert s[..|s| - 1] == Digits(n / 10);
      DigitsRoundTrip(n / 10);
    }
  }

  /** The key of UTC day number `day`. */
  function Key(day: int): (k: DateKey)
    ensures |k| >= 1
  {
    if day < 0 then "-" + Digits(-day) else Digits(day)
  }

  /** Reads a key back into its day number; `None` for text no day produces. */
  function ParseKey(k: DateKey): Option<int> {
    if |k| >= 2 && k[0] == '-' && AllDigits(k[1..]) then Some(-(DigitsValue(k[1..]) as int))
    else if |k| >= 1 && AllDigits(k) then Some(DigitsValue(k))
    else None
  }

  lemma KeyRoundTrip(day: int)
    ensures ParseKey(Key(day)) == Some(day)
  {
    if day < 0 {
      assert Key(day)[1..] == Digits(-day);
      DigitsRoundTrip(-day);
    } else {
      assert IsDigit(Key(day)[0]);
      DigitsRoundTrip(day);
    }
  }

  /** Two different days never share a key, so never share a record. */
  lemma KeysDistinct()
    ensures forall a: int, b: int :: a != b ==> Key(a) != Key(b)
  {
    forall a: int, b: int | a != b
      ensures Key(a) != Key(b)
    {
      KeyRoundTrip(a);
      KeyRoundTrip(b);
    }
  }
}
