/**
 * `format_currency(amount)`: the rupee sign, an optional minus sign, the
 * whole rupees in decimal with a comma between each group of three digits,
 * a point and exactly two digits of paise. The amount is rounded to the
 * nearest paisa, ties to even, as Python's `,.2f` format does; the minus sign
 * follows the sign of the amount itself, so a tiny negative amount shows as
 * "-0.00".
 */
module Currency {
  import opened Wrappers

  const Rupee: char := '\U{20B9}'

  /** The integer nearest to `x`, ties going to the even neighbour. */
  function RoundHalfEven(x: real): (n: int)
    ensures -0.5 <= x - n as real <= 0.5
    ensures x - n as real == 0.5 || x - n as real == -0.5 ==> n % 2 == 0
  {
    var f := x.Floor;
    var d := x - f as real;
    if d < 0.5 then f
    else if d > 0.5 then f + 1
    else if f % 2 == 0 then f else f + 1
  }

  function Abs(x: real): (r: real)
    ensures r >= 0.0 && (r == x || r == -x)
  {
    if x < 0.0 then -x else x
  }

  /** The magnitude of `x` in whole paise, rounded as the format rounds. */
  function Cents(x: real): (c: nat)
    ensures -0.5 <= Abs(x) * 100.0 - c as real <= 0.5
  {
    RoundHalfEven(Abs(x) * 100.0)
  }

  // ---- decimal digits ----

  predicate IsDigit(ch: char) { '0' <= ch <= '9' }

  function DigitChar(d: nat): (ch: char)
    requires d < 10
    ensures IsDigit(ch) && ch as int - '0' as int == d
  {
    ('0' as int + d) as char
  }

  function DigitValue(ch: char): (d: nat)
    requires IsDigit(ch)
    ensures d < 10 && DigitChar(d) == ch
  {
    ch as int - '0' as int
  }

  /** `n` in decimal, without leading zeros. */
  function Digits(n: nat): (s: string)
    ensures |s| >= 1
    ensures forall k :: 0 <= k < |s| ==> IsDigit(s[k])
    ensures s[0] == '0' ==> n == 0 && s == "0"
  {
    if n < 10 then [DigitChar(n)] else Digits(n / 10) + [DigitChar(n % 10)]
  }

  /** The value of a string of decimal digits. */
  function DigitsValue(s: string): nat
    requires forall k :: 0 <= k < |s| ==> IsDigit(s[k])
  {
    if s == [] then 0 else DigitsValue(s[..|s| - 1]) * 10 + DigitValue(s[|s| - 1])
  }

  lemma {:induction false} DigitsRoundTrip(n: nat)
    ensures DigitsValue(Digits(n)) == n
  {
    if n >= 10 {
      var s := Digits(n);
      assert s[..|s| - 1] == Digits(n / 10);
      DigitsRoundTrip(n / 10);
    }
  }

  /** The two digits of a number of paise below 100. */
  function TwoDigits(n: nat): (s: string)
    requires n < 100
    ensures |s| == 2 && IsDigit(s[0]) && IsDigit(s[1])
    ensures DigitValue(s[0]) * 10 + DigitValue(s[1]) == n
  {
    [DigitChar(n / 10), DigitChar(n % 10)]
  }

  // ---- thousands separators ----

  /** Insert a comma before each group of three digits counted from the right. */
  function GroupThousands(d: string): (r: string)
    ensures |r| >= |d|
  {
    if |d| <= 3 then d else GroupThousands(d[..|d| - 3]) + [','] + d[|d| - 3..]
  }

  /** `s` with every comma removed. */
  function RemoveCommas(s: string): (r: string)
    ensures ',' !in r
  {
    if s == [] then [] else RemoveCommas(s[..|s| - 1]) + (if s[|s| - 1] == ',' then [] else [s[|s| - 1]])
  }

  lemma {:induction false} RemoveCommasConcat(s: string, t: string)
    ensures RemoveCommas(s + t) == RemoveCommas(s) + RemoveCommas(t)
  {
    if t == [] {
      assert s + t == s;
    } else {
      assert (s + t)[..|s + t| - 1] == s + t[..|t| - 1];
      RemoveCommasConcat(s, t[..|t| - 1]);
    }
  }

  lemma {:induction false} RemoveCommasNone(s: string)
    requires ',' !in s
    ensures RemoveCommas(s) == s
  {
    if s != [] {
      RemoveCommasNone(s[..|s| - 1]);
    }
  }

  lemma NoCommaParts(d: string)
    requires ',' !in d && |d| > 3
    ensures ',' !in d[..|d| - 3] && ',' !in d[|d| - 3..]
  {
    assert forall ch :: ch in d[..|d| - 3] ==> ch in d;
    assert forall ch :: ch in d[|d| - 3..] ==> ch in d;
  }

  /** Grouping only adds commas: removing them gives back the digits. */
  lemma {:induction false} GroupThousandsUndone(d: string)
    requires ',' !in d
    ensures RemoveCommas(GroupThousands(d)) == d
  {
    if |d| <= 3 {
      RemoveCommasNone(d);
    } else {
      var head, tail := d[..|d| - 3], d[|d| - 3..];
      var g := GroupThousands(head);
      assert RemoveCommas(g) == head && RemoveCommas(tail) == tail by {
        NoCommaParts(d);
        GroupThousandsUndone(head);
        RemoveCommasNone(tail);
      }
      assert RemoveCommas(g + [',']) == RemoveCommas(g) by {
        RemoveCommasConcat(g, [',']);
        assert [','][..0] == [];
      }
      assert RemoveCommas(GroupThousands(d)) == RemoveCommas(g + [',']) + RemoveCommas(tail) by {
        RemoveCommasConcat(g + [','], tail);
      }
      assert head + tail == d;
    }
  }

  /** The commas of `r` stand exactly at the positions a multiple of four from its right end, never first. */
  predicate CommasEveryFourth(r: string) {
    forall k :: 0 <= k < |r| ==> (r[k] == ',' <==> k > 0 && (|r| - k) % 4 == 0)
  }

  /** Grouping puts the commas every fourth position from the right. */
  lemma {:induction false} GroupThousandsCommas(d: string)
    requires ',' !in d
    ensures CommasEveryFourth(GroupThousands(d))
  {
    var r := GroupThousands(d);
    if |d| <= 3 {
      forall k | 0 <= k < |r| ensures r[k] != ',' {
        assert r[k] in d;
      }
    } else {
      var head, tail := d[..|d| - 3], d[|d| - 3..];
      NoCommaParts(d);
      GroupThousandsCommas(head);
      var g := GroupThousands(head);
      assert r == g + [','] + tail;
      CommasShift(g, tail, r);
    }
  }

  /** Appending a comma and three digits to a grouped text keeps the commas every fourth position. */
  lemma CommasShift(g: string, tail: string, r: string)
    requires g != [] && CommasEveryFourth(g)
    requires |tail| == 3 && ',' !in tail && r == g + [','] + tail
    ensures CommasEveryFourth(r)
  {
    forall k | 0 <= k < |r| ensures r[k] == ',' <==> k > 0 && (|r| - k) % 4 == 0 {
      if k < |g| {
        assert r[k] == g[k];
        assert g[k] == ',' <==> k > 0 && (|g| - k) % 4 == 0;
        assert (|r| - k) % 4 == (|g| - k) % 4;
      } else if k == |g| {
        assert r[k] == ',' && k > 0 && |r| - k == 4;
      } else {
        assert r[k] == tail[k - |g| - 1];
        assert tail[k - |g| - 1] in tail;
        assert 0 < |r| - k < 4;
      }
    }
  }

  // ---- the format ----

  /** The digits of `c` paise, grouped and pointed as the format writes them. */
  function AmountText(c: nat): string {
    GroupThousands(Digits(c / 100)) + "." + TwoDigits(c % 100)
  }

  /** `f"₹{amount:,.2f}"`. */
  function FormatCurrency(x: real): string {
    [Rupee] + (if x < 0.0 then "-" else "") + AmountText(Cents(x))
  }

  /** The digits after the sign: whole rupees (commas dropped), a point, exactly two digits of paise. */
  function ParseAmount(negative: bool, body: string): Option<(bool, nat)> {
    if |body| < 4 || body[|body| - 3] != '.' then None
    else
      var whole, frac := RemoveCommas(body[..|body| - 3]), body[|body| - 2..];
      if whole == [] || !(forall k :: 0 <= k < |whole| ==> IsDigit(whole[k]))
         || !IsDigit(frac[0]) || !IsDigit(frac[1])
      then None
      else Some((negative, DigitsValue(whole) * 100 + DigitValue(frac[0]) * 10 + DigitValue(frac[1])))
  }

  /** Read a formatted amount back: the sign, and the magnitude in paise. */
  function ParseCurrency(s: string): Option<(bool, nat)> {
    if |s| < 5 || s[0] != Rupee then None
    else if s[1] == '-' then ParseAmount(true, s[2..])
    else ParseAmount(false, s[1..])
  }

  /** How the parser takes apart a body made of whole rupees, a point and two digits. */
  lemma ParseAmountParts(negative: bool, body: string, g: string, f: string, n: nat)
    requires body == g + "." + f
    requires RemoveCommas(g) != [] && forall k :: 0 <= k < |RemoveCommas(g)| ==> IsDigit(RemoveCommas(g)[k])
    requires |f| == 2 && IsDigit(f[0]) && IsDigit(f[1])
    requires n == DigitsValue(RemoveCommas(g)) * 100 + DigitValue(f[0]) * 10 + DigitValue(f[1])
    ensures ParseAmount(negative, body) == Some((negative, n))
  {
    assert body[..|body| - 3] == g && body[|body| - 3] == '.' && body[|body| - 2..] == f;
  }

  lemma AmountTextRoundTrip(negative: bool, c: nat)
    ensures |AmountText(c)| >= 4 && IsDigit(AmountText(c)[0])
    ensures ParseAmount(negative, AmountText(c)) == Some((negative, c))
  {
    var digits := Digits(c / 100);
    var grouped := GroupThousands(digits);
    var frac := TwoDigits(c % 100);
    assert RemoveCommas(grouped) == digits && grouped[0] == digits[0] by {
      assert ',' !in digits by {
        forall k | 0 <= k < |digits| ensures digits[k] != ',' {
          assert IsDigit(digits[k]);
        }
      }
      GroupThousandsUndone(digits);
      GroupThousandsCommas(digits);
      FirstKept(grouped);
    }
    DigitsRoundTrip(c / 100);
    assert DigitsValue(RemoveCommas(grouped)) == c / 100;
    assert DigitValue(frac[0]) * 10 + DigitValue(frac[1]) == c % 100;
    ParseAmountParts(negative, AmountText(c), grouped, frac, c);
  }

  /** Removing commas keeps a first character that is not a comma. */
  lemma {:induction false} FirstKept(s: string)
    requires s != [] && s[0] != ','
    ensures RemoveCommas(s) != [] && RemoveCommas(s)[0] == s[0]
  {
    if |s| > 1 {
      FirstKept(s[..|s| - 1]);
    }
  }

  /**
   * The format loses nothing beyond the rounding: it can be read back to the
   * sign of the amount and its magnitude in paise.
   */
  lemma FormatRoundTrip(x: real)
    ensures ParseCurrency(FormatCurrency(x)) == Some((x < 0.0, Cents(x)))
  {
    var c := Cents(x);
    var body := AmountText(c);
    AmountTextRoundTrip(x < 0.0, c);
    var s := FormatCurrency(x);
    if x < 0.0 {
      assert s == [Rupee, '-'] + body;
      assert s[2..] == body;
    } else {
      assert s == [Rupee] + body;
      assert s[1..] == body;
    }
  }

  /** Two amounts format alike exactly when they agree in sign and in rounded paise. */
  lemma FormatInjective(x: real, y: real)
    ensures FormatCurrency(x) == FormatCurrency(y) <==> (x < 0.0 <==> y < 0.0) && Cents(x) == Cents(y)
  {
    FormatRoundTrip(x);
    FormatRoundTrip(y);
  }

  /** Grouping adds commas and nothing else. */
  lemma {:induction false} GroupThousandsAddsOnlyCommas(d: string, ch: char)
    requires ch != ',' && ch !in d
    ensures ch !in GroupThousands(d)
  {
    if |d| > 3 {
      var head, tail := d[..|d| - 3], d[|d| - 3..];
      assert ch !in head && ch !in tail by {
        assert d == head + tail;
      }
      GroupThousandsAddsOnlyCommas(head, ch);
    }
  }

  /** A formatted amount never holds a newline, so it always fits on one line of a message. */
  lemma FormatSingleLine(x: real)
    ensures '\n' !in FormatCurrency(x)
  {
    var c := Cents(x);
    var d := Digits(c / 100);
    assert '\n' !in d by {
      forall k | 0 <= k < |d| ensures d[k] != '\n' {
        assert IsDigit(d[k]);
      }
    }
    GroupThousandsAddsOnlyCommas(d, '\n');
    var f := TwoDigits(c % 100);
    assert '\n' !in f;
  }

  /** The example amount 1500 shows as "₹1,500.00". */
  lemma FormatThousands()
    ensures FormatCurrency(1500.0) == [Rupee] + "1,500.00"
  {
    var c := Cents(1500.0);
    assert c == 150000;
    assert c / 100 == 1500 && c % 100 == 0;
    assert Digits(1500) == "1500" by {
      assert Digits(15) == "15";
    }
    assert GroupThousands("1500") == "1,500" by {
      assert "1500"[..1] == "1" && "1500"[1..] == "500";
    }
    assert TwoDigits(0) == "00";
    assert AmountText(c) == "1,500.00";
  }

  /** An amount under a thousand has no comma: 500 shows as "₹500.00". */
  lemma FormatHundreds()
    ensures FormatCurrency(500.0) == [Rupee] + "500.00"
  {
    assert Cents(500.0) == 50000;
    assert Digits(500) == "500" by {
      assert Digits(5) == "5";
    }
  }
}
