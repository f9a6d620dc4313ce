/** Decimal text for integers: the stand-in for Go's strconv.Itoa and for the
    zero-padded numeric fields that time.Format writes, together with the
    decoders that the round-trip lemmas use as their partners. */
module Decimal {

  predicate IsDigit(c: char) {
    '0' <= c <= '9'
  }

  predicate AllDigits(s: string) {
    forall i :: 0 <= i < |s| ==> IsDigit(s[i])
  }

  function DigitValue(c: char): (d: nat)
    requires IsDigit(c)
    ensures d < 10
  {
    c as int - '0' as int
  }

  function DigitChar(d: nat): (c: char)
    requires d < 10
    ensures IsDigit(c) && DigitValue(c) == d
  {
    ('0' as int + d) as char
  }

  /** The value of a string of decimal digits, most significant first. */
  function ParseNat(s: string): nat
    requires AllDigits(s)
  {
    if s == [] then 0 else 10 * ParseNat(s[..|s| - 1]) + DigitValue(s[|s| - 1])
  }

  /** The shortest decimal text of `n`: never empty, no leading zero. */
  function NatToDecimal(n: nat): (s: string)
    ensures |s| >= 1 && AllDigits(s)
    ensures s[0] == '0' ==> n == 0 && s == "0"
    decreases n
  {
    if n < 10 then [DigitChar(n)] else NatToDecimal(n / 10) + [DigitChar(n % 10)]
  }

  lemma {:induction false} ParseNatToDecimal(n: nat)
    ensures ParseNat(NatToDecimal(n)) == n
    decreases n
  {
    if n >= 10 {
      ParseNatToDecimal(n / 10);
      var s := NatToDecimal(n);
      assert s[..|s| - 1] == NatToDecimal(n / 10);
    }
  }

  /** strconv.Itoa: a `-` sign for negative values, then the digits of the magnitude. */
  function IntToDecimal(i: int): (s: string)
  {
    if i < 0 then "-" + NatToDecimal(-i) else NatToDecimal(i)
  }

  predicate IsIntText(s: string) {
    AllDigits(s) || (|s| > 0 && s[0] == '-' && AllDigits(s[1..]))
  }

  function ParseInt(s: string): int
    requires IsIntText(s)
  {
    if |s| > 0 && s[0] == '-' then -(ParseNat(s[1..]) as int) else ParseNat(s)
  }

  /** Canonical integer text: an optional `-`, then at least one digit, with
      no leading zero; the only text starting with `0` is "0" itself. */
  predicate CanonicalInt(s: string) {
    IsIntText(s)
    && var d := if |s| > 0 && s[0] == '-' then s[1..] else s;
       |d| >= 1 && (d[0] == '0' ==> s == "0")
  }

  /** Itoa's text is a well-formed integer literal that decodes back to the value,
      carries a sign exactly when the value is negative, and has no leading zero. */
  lemma IntToDecimalRoundTrip(i: int)
    ensures IsIntText(IntToDecimal(i))
    ensures ParseInt(IntToDecimal(i)) == i
    ensures var s := IntToDecimal(i); (s[0] == '-' <==> i < 0) && |s| >= 1
    ensures var d := if i < 0 then IntToDecimal(i)[1..] else IntToDecimal(i);
      |d| >= 1 && (d[0] == '0' ==> i == 0)
    ensures CanonicalInt(IntToDecimal(i))
  {
    var m: nat := if i < 0 then -i else i;
    ParseNatToDecimal(m);
    if i < 0 {
      assert IntToDecimal(i)[1..] == NatToDecimal(m);
    }
  }

  /** A digit string with a non-zero leading digit denotes at least 1. */
  lemma {:induction false} ParseNatPositive(s: string)
    requires AllDigits(s) && |s| >= 1 && s[0] != '0'
    ensures ParseNat(s) >= 1
    decreases |s|
  {
    if |s| > 1 {
      ParseNatPositive(s[..|s| - 1]);
    }
  }

  /** Digit text without a leading zero is the shortest text of its value. */
  lemma {:induction false} NatToDecimalUnique(d: string)
    requires AllDigits(d) && |d| >= 1 && (d[0] == '0' ==> |d| == 1)
    ensures NatToDecimal(ParseNat(d)) == d
    decreases |d|
  {
    var last := d[|d| - 1];
    if |d| == 1 {
      assert d == [last];
      assert ParseNat(d) == DigitValue(last) by {
        assert d[..0] == [];
      }
      assert DigitChar(DigitValue(last)) == last;
    } else {
      var init := d[..|d| - 1];
      ParseNatPositive(init);
      NatToDecimalUnique(init);
      var n := ParseNat(d);
      assert n / 10 == ParseNat(init) && n % 10 == DigitValue(last);
      assert DigitChar(DigitValue(last)) == last;
      assert d == init + [last];
    }
  }

  /** Canonical integer text is exactly Itoa's text of the value it denotes,
      so a canonical text that decodes to `i` is `IntToDecimal(i)`. */
  lemma CanonicalIntUnique(s: string)
    requires CanonicalInt(s)
    ensures IntToDecimal(ParseInt(s)) == s
  {
    if |s| > 0 && s[0] == '-' {
      var d := s[1..];
      ParseNatPositive(d);
      NatToDecimalUnique(d);
      assert s == "-" + d;
    } else {
      NatToDecimalUnique(s);
    }
  }

  function Zeros(k: nat): (s: string)
    ensures |s| == k && AllDigits(s)
  {
    seq(k, _ => '0')
  }

  lemma {:induction false} ParseNatZeroPrefix(k: nat, s: string)
    requires AllDigits(s)
    ensures AllDigits(Zeros(k) + s) && ParseNat(Zeros(k) + s) == ParseNat(s)
    decreases |s|
  {
    var z := Zeros(k) + s;
    if s == [] {
      assert z == Zeros(k);
      ParseNatZeros(k);
    } else {
      var s' := s[..|s| - 1];
      ParseNatZeroPrefix(k, s');
      assert z[..|z| - 1] == Zeros(k) + s';
    }
  }

  lemma {:induction false} ParseNatZeros(k: nat)
    ensures ParseNat(Zeros(k)) == 0
    decreases k
  {
    if k > 0 {
      ParseNatZeros(k - 1);
      assert Zeros(k)[..k - 1] == Zeros(k - 1);
    }
  }

  /** Go's internal appendInt(b, x, width) for x >= 0: the decimal text of `n`,
      left-padded with zeros to at least `width` characters. */
  function PadDecimal(n: nat, width: nat): (s: string)
    ensures AllDigits(s)
    ensures |s| == if |NatToDecimal(n)| < width then width else |NatToDecimal(n)|
    ensures ParseNat(s) == n
  {
    var d := NatToDecimal(n);
    var k: nat := if |d| < width then width - |d| else 0;
    ParseNatZeroPrefix(k, d);
    ParseNatToDecimal(n);
    Zeros(k) + d
  }

  /** A value below 10^width never needs more than `width` digits. */
  lemma {:induction false} NatToDecimalWidth(n: nat, width: nat)
    requires n < Pow10(width)
    ensures |NatToDecimal(n)| <= width || (n == 0 && width == 0)
    decreases n
  {
    if n >= 10 {
      assert width >= 1;
      assert n / 10 < Pow10(width - 1);
      NatToDecimalWidth(n / 10, width - 1);
    }
  }

  function Pow10(k: nat): (p: nat)
    ensures p >= 1
  {
    if k == 0 then 1 else 10 * Pow10(k - 1)
  }
}

/** The values a placeholder can carry and a literal can format. */
module Values {
  import opened Decimal

  datatype Option<T> = None | Some(value: T)

  /** A Go time.Time as seen by this code: the Unix seconds that DateOverlaps
      compares with zero and the civil fields that Format writes, already in
      the time's location. No calendar consistency between the two is modelled. */
  datatype Time = Time(unix: int, year: nat, month: nat, day: nat, hour: nat, minute: nat, second: nat)

  /** The value kinds of Go's interface{} that the builder distinguishes; `Other`
      stands for every other dynamic type (nil, a struct, a slice, ...) and
      carries the name of that type. */
  datatype Val =
    | VString(s: string)
    | VInt(i: int)
    | VTime(t: Time)
    | VBool(b: bool)
    | Other(typeName: string)

  /** The fields fit the fixed widths of the layout. */
  predicate FitsLayout(t: Time) {
    t.year < 10000 && t.month < 100 && t.day < 100 && t.hour < 100 && t.minute < 100 && t.second < 100
  }

  /** time.Format with layout "2006-01-02 15:04:05". */
  function FormatTime(t: Time): (s: string)
    ensures FitsLayout(t) ==> TimeLayout(s, t)
  {
    var date := PadDecimal(t.year, 4) + "-" + PadDecimal(t.month, 2) + "-" + PadDecimal(t.day, 2);
    var clock := PadDecimal(t.hour, 2) + ":" + PadDecimal(t.minute, 2) + ":" + PadDecimal(t.second, 2);
    if FitsLayout(t) then
      FormatTimeLayout(t, date, clock);
      date + " " + clock
    else
      date + " " + clock
  }

  lemma FormatTimeLayout(t: Time, date: string, clock: string)
    requires FitsLayout(t)
    requires date == PadDecimal(t.year, 4) + "-" + PadDecimal(t.month, 2) + "-" + PadDecimal(t.day, 2)
    requires clock == PadDecimal(t.hour, 2) + ":" + PadDecimal(t.minute, 2) + ":" + PadDecimal(t.second, 2)
    ensures TimeLayout(date + " " + clock, t)
  {
    DateLayoutOf(t, date);
    ClockLayoutOf(t, clock);
    var s := date + " " + clock;
    assert s[0..10] == date && s[11..19] == clock;
  }

  lemma DateLayoutOf(t: Time, date: string)
    requires FitsLayout(t)
    requires date == PadDecimal(t.year, 4) + "-" + PadDecimal(t.month, 2) + "-" + PadDecimal(t.day, 2)
    ensures DateLayout(date, t)
  {
    WidthOfField(t.year, 4); WidthOfField(t.month, 2); WidthOfField(t.day, 2);
    assert date[0..4] == PadDecimal(t.year, 4);
    assert date[5..7] == PadDecimal(t.month, 2);
    assert date[8..10] == PadDecimal(t.day, 2);
  }

  lemma ClockLayoutOf(t: Time, clock: string)
    requires FitsLayout(t)
    requires clock == PadDecimal(t.hour, 2) + ":" + PadDecimal(t.minute, 2) + ":" + PadDecimal(t.second, 2)
    ensures ClockLayout(clock, t)
  {
    WidthOfField(t.hour, 2); WidthOfField(t.minute, 2); WidthOfField(t.second, 2);
    assert clock[0..2] == PadDecimal(t.hour, 2);
    assert clock[3..5] == PadDecimal(t.minute, 2);
    assert clock[6..8] == PadDecimal(t.second, 2);
  }

  /** `s` is exactly YYYY-MM-DD HH:MM:SS and each field decodes to the time's own. */
  predicate TimeLayout(s: string, t: Time) {
    |s| == 19 && DateLayout(s[0..10], t) && s[10] == ' ' && ClockLayout(s[11..19], t)
  }

  predicate DateLayout(d: string, t: Time) {
    && |d| == 10 && d[4] == '-' && d[7] == '-'
    && AllDigits(d[0..4]) && ParseNat(d[0..4]) == t.year
    && AllDigits(d[5..7]) && ParseNat(d[5..7]) == t.month
    && AllDigits(d[8..10]) && ParseNat(d[8..10]) == t.day
  }

  predicate ClockLayout(c: string, t: Time) {
    && |c| == 8 && c[2] == ':' && c[5] == ':'
    && AllDigits(c[0..2]) && ParseNat(c[0..2]) == t.hour
    && AllDigits(c[3..5]) && ParseNat(c[3..5]) == t.minute
    && AllDigits(c[6..8]) && ParseNat(c[6..8]) == t.second
  }

  lemma WidthOfField(n: nat, width: nat)
    requires width >= 1 && n < Pow10(width)
    ensures |PadDecimal(n, width)| == width
  {
    NatToDecimalWidth(n, width);
  }
}
