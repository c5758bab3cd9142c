/** The number syntax behind `int.TryParse` and `double.TryParse` as the
    validators use them, reduced to one culture-free decimal grammar:

      number  ::= ws* sign? digits ws*                    (integers)
      decimal ::= ws* sign? ( digits | digits? '.' digits? ) ws*
                                                          (with at least one digit)

    where `ws` is the whitespace .NET number styles accept (U+0009..U+000D
    and U+0020) and `sign` is `+` or `-`. Integers must fit in 32 bits. */
module NumberParsing {
  import opened Wrappers

  const Int32Min: int := -0x8000_0000
  const Int32Max: int := 0x7FFF_FFFF

  /** Whitespace that a number may be surrounded by. */
  predicate IsNumberWhite(c: char) {
    ('\t' <= c <= '\r') || c == ' '
  }

  predicate IsDigit(c: char) {
    '0' <= c <= '9'
  }

  /** Every character is a decimal digit. */
  predicate AllDigits(s: string) {
    s == [] || (IsDigit(s[0]) && AllDigits(s[1..]))
  }

  /** Some character is a decimal digit. */
  predicate HasDigit(s: string) {
    s != [] && (IsDigit(s[0]) || HasDigit(s[1..]))
  }

  /** `s` with its leading number whitespace removed. */
  function TrimStart(s: string): (r: string)
    ensures |r| <= |s|
  {
    if s != [] && IsNumberWhite(s[0]) then TrimStart(s[1..]) else s
  }

  /** `s` with its trailing number whitespace removed. */
  function TrimEnd(s: string): (r: string)
    ensures |r| <= |s|
  {
    if s != [] && IsNumberWhite(s[|s| - 1]) then TrimEnd(s[..|s| - 1]) else s
  }

  /** `s` without surrounding number whitespace. */
  function Trim(s: string): string {
    TrimEnd(TrimStart(s))
  }

  /** An optional leading sign, split off: whether it was `-`, and the rest. */
  function SplitSign(s: string): (bool, string) {
    if s != [] && (s[0] == '-' || s[0] == '+') then (s[0] == '-', s[1..]) else (false, s)
  }

  /** The value of a string of decimal digits; 0 for the empty string. */
  function DigitsValue(s: string): nat
    requires AllDigits(s)
  {
    if s == [] then 0 else (s[0] as int - '0' as int) * Pow10(|s| - 1) + DigitsValue(s[1..])
  }

  function Pow10(n: nat): (r: nat)
    ensures r > 0
  {
    if n == 0 then 1 else 10 * Pow10(n - 1)
  }

  /** The decimal digit character for `d`. */
  function DigitChar(d: nat): (c: char)
    requires d < 10
    ensures IsDigit(c) && c as int - '0' as int == d
  {
    ('0' as int + d) as char
  }

  /** The decimal rendering of `n`, without leading zeros: the inverse
      the parsers are checked against. */
  function Decimal(n: nat): (r: string)
    ensures r != [] && AllDigits(r) && DigitsValue(r) == n
  {
    if n < 10 then [DigitChar(n)]
    else
      var front := Decimal(n / 10);
      DigitsAppend(front, DigitChar(n % 10));
      front + [DigitChar(n % 10)]
  }

  /** Appending a digit multiplies the value by ten and adds the digit. */
  lemma {:induction false} DigitsAppend(s: string, c: char)
    requires AllDigits(s) && IsDigit(c)
    ensures AllDigits(s + [c])
    ensures DigitsValue(s + [c]) == 10 * DigitsValue(s) + (c as int - '0' as int)
  {
    if s == [] {
      assert s + [c] == [c];
    } else {
      var t := s + [c];
      assert t[0] == s[0] && t[1..] == s[1..] + [c];
      DigitsAppend(s[1..], c);
      var d := s[0] as int - '0' as int;
      assert d * Pow10(|t| - 1) == 10 * (d * Pow10(|s| - 1)) by {
        assert Pow10(|t| - 1) == 10 * Pow10(|s| - 1);
      }
    }
  }

  /** The index of the first '.' in `s`, if any. */
  function FirstDot(s: string): (r: Option<nat>)
    ensures r.Some? ==> r.value < |s| && s[r.value] == '.'
  {
    if s == [] then None
    else if s[0] == '.' then Some(0)
    else match FirstDot(s[1..])
      case None => None
      case Some(k) => Some(k + 1)
  }

  /** An unsigned decimal: digits with at most one '.', and a digit on some side of it. */
  function ParseUnsignedDecimal(body: string): (r: Option<real>)
    ensures r.Some? ==> HasDigit(body)
  {
    if AllDigits(body) then
      if body == [] then None else Some(DigitsValue(body) as real)
    else match FirstDot(body)
      case None => None
      case Some(k) =>
        var whole, fraction := body[..k], body[k + 1..];
        if AllDigits(whole) && AllDigits(fraction) && |whole| + |fraction| > 0
        then
          DecimalHasDigit(body, k);
          Some(DigitsValue(whole) as real + DigitsValue(fraction) as real / Pow10(|fraction|) as real)
        else None
  }

  /** `int.TryParse`: the 32-bit integer `s` denotes, or None. */
  function ParseInt(s: string): (r: Option<int>)
    ensures r.Some? ==> Int32Min <= r.value <= Int32Max
  {
    var (negative, body) := SplitSign(Trim(s));
    if body == [] || !AllDigits(body) then None
    else
      var v: int := if negative then -(DigitsValue(body) as int) else DigitsValue(body);
      if Int32Min <= v <= Int32Max then Some(v) else None
  }

  /** `double.TryParse` on the grammar above: the exact value `s` denotes, or None. */
  function ParseDouble(s: string): (r: Option<real>) {
    var (negative, body) := SplitSign(Trim(s));
    match ParseUnsignedDecimal(body)
    case None => None
    case Some(v) => Some(if negative then -v else v)
  }

  predicate IsInt(s: string) {
    ParseInt(s).Some?
  }

  predicate IsDouble(s: string) {
    ParseDouble(s).Some?
  }

  /** `double.Parse`, which throws on a string `double.TryParse` rejects:
      here callers must show that the string parses. */
  function DoubleParse(s: string): real
    requires IsDouble(s)
  {
    ParseDouble(s).value
  }

  /** Every string `int.TryParse` accepts is accepted by `double.TryParse`
      with the same value. */
  lemma IntIsDouble(s: string)
    requires IsInt(s)
    ensures ParseDouble(s) == Some(ParseInt(s).value as real)
  {
  }

  lemma {:induction false} HasDigitPrefix(s: string, n: nat)
    requires n <= |s| && HasDigit(s[..n])
    ensures HasDigit(s)
  {
    if !IsDigit(s[0]) {
      assert s[..n][1..] == s[1..][..n - 1];
      HasDigitPrefix(s[1..], n - 1);
    }
  }

  lemma {:induction false} HasDigitSuffix(s: string, n: nat)
    requires n <= |s| && HasDigit(s[n..])
    ensures HasDigit(s)
  {
    if n > 0 && !IsDigit(s[0]) {
      assert s[1..][n - 1..] == s[n..];
      HasDigitSuffix(s[1..], n - 1);
    }
  }

  /** The two sides of a decimal point, one of them non-empty, hold a digit. */
  lemma DecimalHasDigit(body: string, k: nat)
    requires k < |body| && AllDigits(body[..k]) && AllDigits(body[k + 1..]) && |body| > 1
    ensures HasDigit(body)
  {
    if k > 0 {
      HasDigitPrefix(body, k);
    } else {
      HasDigitSuffix(body, 1);
    }
  }

  lemma {:induction false} TrimStartHasDigit(s: string)
    requires HasDigit(TrimStart(s))
    ensures HasDigit(s)
  {
    if s != [] && IsNumberWhite(s[0]) {
      TrimStartHasDigit(s[1..]);
    }
  }

  lemma {:induction false} TrimEndHasDigit(s: string)
    requires HasDigit(TrimEnd(s))
    ensures HasDigit(s)
  {
    if s != [] && IsNumberWhite(s[|s| - 1]) {
      TrimEndHasDigit(s[..|s| - 1]);
      HasDigitPrefix(s, |s| - 1);
    }
  }

  /** The rendering of a 32-bit natural number, with or without a leading
      sign, reads back as that number through both parsers. */
  lemma ParseDecimal(n: nat)
    requires n <= Int32Max
    ensures ParseInt(Decimal(n)) == Some(n)
    ensures ParseInt("-" + Decimal(n)) == Some(-(n as int))
    ensures ParseDouble(Decimal(n)) == Some(n as real)
    ensures ParseDouble("-" + Decimal(n)) == Some(-(n as real))
  {
    var r := Decimal(n);
    assert IsDigit(r[0]) && IsDigit(r[|r| - 1]) by {
      DigitsAt(r, 0);
      DigitsAt(r, |r| - 1);
    }
    assert Trim(r) == r;
    var m := "-" + r;
    assert m[1..] == r && m[|m| - 1] == r[|r| - 1];
    assert Trim(m) == m;
  }

  lemma {:induction false} DigitsAt(s: string, i: nat)
    requires AllDigits(s) && i < |s|
    ensures IsDigit(s[i])
  {
    if i > 0 {
      DigitsAt(s[1..], i - 1);
    }
  }

  /** A text whose first character can start no number does not parse,
      under the modelled grammar, which has no NaN or Infinity. */
  lemma BadStartIsNotNumber(s: string)
    requires s != [] && !IsDigit(s[0]) && !IsNumberWhite(s[0])
    requires s[0] != '.' && s[0] != '+' && s[0] != '-'
    ensures ParseDouble(s) == None
  {
    assert Trim(s) == TrimEnd(s);
    var t := TrimEnd(s);
    assert t != [] ==> t[0] == s[0] by {
      TrimEndKeepsStart(s);
    }
    match FirstDot(t)
    case None =>
    case Some(k) =>
      assert t[..k][0] == t[0];
  }

  lemma {:induction false} TrimEndKeepsStart(s: string)
    ensures TrimEnd(s) == s[..|TrimEnd(s)|]
  {
    if s != [] && IsNumberWhite(s[|s| - 1]) {
      TrimEndKeepsStart(s[..|s| - 1]);
    }
  }

  /** A string that parses as a number contains a digit. */
  lemma NumberHasDigit(s: string)
    requires IsDouble(s)
    ensures HasDigit(s)
  {
    var t := Trim(s);
    var (negative, body) := SplitSign(t);
    if body != t {
      HasDigitSuffix(t, 1);
    }
    TrimEndHasDigit(TrimStart(s));
    TrimStartHasDigit(s);
  }
}
