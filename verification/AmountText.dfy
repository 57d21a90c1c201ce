/** Amounts of money as text: micros printed with six decimals, and a parser for decimal text. */
module AmountText {
  import opened Common
  import opened Money

  const MICROS_PER_UNIT := 1_000_000

  predicate IsDigit(c: char) { '0' <= c <= '9' }

  predicate Digits(s: string) {
    forall i :: 0 <= i < |s| ==> IsDigit(s[i])
  }

  function DigitOf(c: char): int { c as int - '0' as int }

  /** The number a string of digits denotes; the empty string denotes zero. */
  function Number(s: string): int {
    if s == "" then 0 else 10 * Number(s[..|s| - 1]) + DigitOf(s[|s| - 1])
  }

  function PowerOf10(n: nat): int { if n == 0 then 1 else 10 * PowerOf10(n - 1) }

  function Zeros(n: nat): string { seq(n, i => '0') }

  lemma {:induction false} NumberOfConcat(a: string, b: string)
    ensures Number(a + b) == Number(a) * PowerOf10(|b|) + Number(b)
  {
    if b == "" {
      assert a + b == a;
    } else {
      var front, last := b[..|b| - 1], b[|b| - 1];
      assert (a + b)[..|a + b| - 1] == a + front;
      NumberOfConcat(a, front);
      TenTimes(Number(a), PowerOf10(|front|), Number(front));
    }
  }

  lemma TenTimes(a: int, p: int, b: int)
    ensures 10 * (a * p + b) == a * (10 * p) + 10 * b
  {
  }

  lemma {:induction false} NumberOfZeros(n: nat)
    ensures Number(Zeros(n)) == 0
  {
    if n > 0 {
      assert Zeros(n)[..n - 1] == Zeros(n - 1);
      NumberOfZeros(n - 1);
    }
  }

  /******* The meaning of an amount *******/

  /** Digits, and optionally a point and at most six digits. */
  datatype Decimal = Decimal(whole: string, point: bool, fraction: string)

  /** A decimal with an optional sign. */
  datatype Parts = Parts(sign: string, decimal: Decimal)

  function DecimalText(d: Decimal): string { d.whole + (if d.point then "." else "") + d.fraction }

  function Text(p: Parts): string { p.sign + DecimalText(p.decimal) }

  predicate WellformedDecimal(d: Decimal) {
    && Digits(d.whole) && Digits(d.fraction) && |d.fraction| <= 6
    && (!d.point ==> d.fraction == "" && d.whole != "")
  }

  predicate Wellformed(p: Parts) {
    (p.sign == "" || p.sign == "+" || p.sign == "-") && WellformedDecimal(p.decimal)
  }

  /** The decimal value times one million. */
  function DecimalMicros(d: Decimal): int
    requires |d.fraction| <= 6
  {
    Number(d.whole) * MICROS_PER_UNIT + Number(d.fraction) * PowerOf10(6 - |d.fraction|)
  }

  function Micros(p: Parts): int
    requires |p.decimal.fraction| <= 6
  {
    if p.sign == "-" then -DecimalMicros(p.decimal) else DecimalMicros(p.decimal)
  }

  /** The text spells this amount. */
  ghost predicate Spells(text: string, m: int) {
    exists p :: Wellformed(p) && Text(p) == TrimSpace(text) && Micros(p) == m
  }

  /******* Splitting *******/

  function PointAt(s: string): (n: nat)
    ensures n <= |s| && (n < |s| ==> s[n] == '.') && forall i :: 0 <= i < n ==> s[i] != '.'
  {
    if s == "" || s[0] == '.' then 0 else 1 + PointAt(s[1..])
  }

  /** Reading an unsigned text: the first point separates the parts. */
  function SplitDecimal(s: string): Decimal {
    var n := PointAt(s);
    if n < |s| then Decimal(s[..n], true, s[n + 1..]) else Decimal(s, false, "")
  }

  predicate Signed(s: string) { s != "" && (s[0] == '+' || s[0] == '-') }

  /** Reading a text: the first character if it is a sign, and the rest. */
  function Split(s: string): Parts {
    if Signed(s) then Parts(s[..1], SplitDecimal(s[1..])) else Parts("", SplitDecimal(s))
  }

  lemma SplitDecimalSpells(s: string)
    ensures DecimalText(SplitDecimal(s)) == s
  {
  }

  lemma SplitSpells(s: string)
    ensures Text(Split(s)) == s
  {
    if Signed(s) {
      SplitDecimalSpells(s[1..]);
    } else {
      SplitDecimalSpells(s);
    }
  }

  lemma PointIsUnique(a: string, b: string)
    requires Digits(a)
    ensures PointAt(a + "." + b) == |a|
  {
    var s := a + "." + b;
    assert forall i :: 0 <= i < |a| ==> s[i] == a[i];
    assert s[|a|] == '.';
  }

  lemma SplitDecimalFinds(d: Decimal)
    requires WellformedDecimal(d)
    ensures SplitDecimal(DecimalText(d)) == d
  {
    var s := DecimalText(d);
    if d.point {
      PointIsUnique(d.whole, d.fraction);
      assert s == d.whole + "." + d.fraction;
      assert s[..|d.whole|] == d.whole && s[|d.whole| + 1..] == d.fraction;
    } else {
      assert s == d.whole;
    }
  }

  lemma DecimalUnsigned(d: Decimal)
    requires WellformedDecimal(d)
    ensures !Signed(DecimalText(d))
  {
    var s := DecimalText(d);
    if d.whole != "" { assert s[0] == d.whole[0]; } else { assert s[0] == '.'; }
  }

  /** Well-formed parts are found again. */
  lemma SplitFinds(p: Parts)
    requires Wellformed(p)
    ensures Split(Text(p)) == p
  {
    SplitDecimalFinds(p.decimal);
    if p.sign == "" {
      DecimalUnsigned(p.decimal);
      assert Text(p) == DecimalText(p.decimal);
    } else {
      assert Text(p)[..1] == p.sign && Text(p)[1..] == DecimalText(p.decimal);
    }
  }

  /** What the parser answers: the amount of the split, when it is well formed and fits 64 bits. */
  function ParseTrimmed(s: string): Option<int> {
    var p := Split(s);
    if Wellformed(p) && IsInt64(Micros(p)) then Some(Micros(p)) else None
  }

  function Parse(text: string): Option<int> { ParseTrimmed(TrimSpace(text)) }

  /** A text is accepted exactly when it spells an amount that fits 64 bits, and that is the answer. */
  lemma ParseIsExact(text: string, m: int)
    ensures Parse(text) == Some(m) <==> Spells(text, m) && IsInt64(m)
  {
    var p := Split(TrimSpace(text));
    if Parse(text) == Some(m) {
      SplitSpells(TrimSpace(text));
      assert Spells(text, m);
    }
    if Spells(text, m) {
      var r :| Wellformed(r) && Text(r) == TrimSpace(text) && Micros(r) == m;
      SplitFinds(r);
    }
  }

  lemma TextIsRead(p: Parts)
    requires Wellformed(p) && IsInt64(Micros(p))
    ensures ParseTrimmed(Text(p)) == Some(Micros(p))
  {
    SplitFinds(p);
  }

  /** Digits with an optional point and up to six decimals are read as they are, with a plus the same, and with a minus
      as the negative. */
  lemma SignsAreRead(sign: string, d: Decimal)
    requires WellformedDecimal(d) && (sign == "" || sign == "+" || sign == "-")
    requires IsInt64(if sign == "-" then -DecimalMicros(d) else DecimalMicros(d))
    ensures ParseTrimmed(sign + DecimalText(d)) == Some(if sign == "-" then -DecimalMicros(d) else DecimalMicros(d))
  {
    TextIsRead(Parts(sign, d));
  }

  /******* Printing *******/

  function DigitChar(d: int): char
    requires 0 <= d < 10
  {
    ('0' as int + d) as char
  }

  function DigitsOf(n: nat): string {
    if n < 10 then [DigitChar(n)] else DigitsOf(n / 10) + [DigitChar(n % 10)]
  }

  lemma {:induction false} DigitsDenote(n: nat)
    ensures DigitsOf(n) != "" && Digits(DigitsOf(n)) && Number(DigitsOf(n)) == n
  {
    if n < 10 {
      assert DigitsOf(n)[..0] == "";
    } else {
      DigitsDenote(n / 10);
      assert DigitsOf(n)[..|DigitsOf(n)| - 1] == DigitsOf(n / 10);
    }
  }

  lemma {:induction false} DigitsAreFew(n: nat, k: nat)
    requires k > 0 && n < PowerOf10(k)
    ensures |DigitsOf(n)| <= k
  {
    assert PowerOf10(1) == 10;
    if n >= 10 {
      DigitsAreFew(n / 10, k - 1);
    }
  }

  lemma Million()
    ensures PowerOf10(6) == MICROS_PER_UNIT
  {
    assert PowerOf10(2) == 100;
    assert PowerOf10(4) == 10000;
  }

  /** Digits with leading zeros up to six places. */
  function SixDigits(n: nat): string
    requires n < MICROS_PER_UNIT
  {
    Million();
    DigitsAreFew(n, 6);
    Zeros(6 - |DigitsOf(n)|) + DigitsOf(n)
  }

  lemma SixDigitsDenote(n: nat)
    requires n < MICROS_PER_UNIT
    ensures |SixDigits(n)| == 6 && Digits(SixDigits(n)) && Number(SixDigits(n)) == n
  {
    Million();
    DigitsAreFew(n, 6);
    DigitsDenote(n);
    var pad := Zeros(6 - |DigitsOf(n)|);
    NumberOfZeros(|pad|);
    NumberOfConcat(pad, DigitsOf(n));
  }

  function Printed(v: int): Parts {
    var abs := Abs(v);
    Parts(if v < 0 then "-" else "", Decimal(DigitsOf(abs / MICROS_PER_UNIT), true, SixDigits(abs % MICROS_PER_UNIT)))
  }

  function Format(v: int): string { Text(Printed(v)) }

  lemma {:induction false} NoLeadingZero(n: nat)
    requires n > 0
    ensures DigitsOf(n) != "" && DigitsOf(n)[0] != '0'
  {
    if n >= 10 { NoLeadingZero(n / 10); }
  }

  /** What an amount looks like: a minus for a negative one, the whole units without leading zeros, a point, and always
      six decimals. */
  lemma FormatLooksLike(v: int) returns (whole: string, fraction: string)
    ensures Format(v) == (if v < 0 then "-" else "") + whole + "." + fraction
    ensures Digits(whole) && Digits(fraction) && |fraction| == 6
    ensures whole == "0" || (whole != "" && whole[0] != '0')
    ensures Number(whole) * 1_000_000 + Number(fraction) == if v < 0 then -v else v
  {
    var units := Abs(v) / MICROS_PER_UNIT;
    whole, fraction := DigitsOf(units), SixDigits(Abs(v) % MICROS_PER_UNIT);
    DigitsDenote(units);
    SixDigitsDenote(Abs(v) % MICROS_PER_UNIT);
    if units > 0 { NoLeadingZero(units); }
    var sign := if v < 0 then "-" else "";
    assert sign + (whole + "." + fraction) == sign + whole + "." + fraction;
  }

  lemma PrintedMeans(v: int)
    ensures Wellformed(Printed(v)) && Micros(Printed(v)) == v
  {
    var abs := Abs(v);
    DigitsDenote(abs / MICROS_PER_UNIT);
    SixDigitsDenote(abs % MICROS_PER_UNIT);
    assert PowerOf10(0) == 1;
  }

  lemma PrintedIsVisible(v: int)
    ensures var s := Format(v); s != "" && !IsSpace(s[0]) && !IsSpace(s[|s| - 1])
  {
    var p, s := Printed(v), Format(v);
    DigitsDenote(Abs(v) / MICROS_PER_UNIT);
    SixDigitsDenote(Abs(v) % MICROS_PER_UNIT);
    assert s[|s| - 1] == p.decimal.fraction[5];
    if v < 0 { assert s[0] == '-'; } else { assert s[0] == p.decimal.whole[0]; }
  }

  lemma ParseVisible(s: string)
    requires s != "" && !IsSpace(s[0]) && !IsSpace(s[|s| - 1])
    ensures Parse(s) == ParseTrimmed(s)
  {
    TrimKeeps(s);
  }

  /** Parsing the printed form of any 64-bit amount returns that amount, the smallest included. */
  lemma ParseAfterFormat(v: int)
    requires IsInt64(v)
    ensures Parse(Format(v)) == Some(v)
  {
    PrintedMeans(v);
    PrintedIsVisible(v);
    ParseVisible(Format(v));
    SplitFinds(Printed(v));
  }

  /** So no two amounts print alike. */
  lemma FormatIsInjective(v: int, w: int)
    requires IsInt64(v) && IsInt64(w) && Format(v) == Format(w)
    ensures v == w
  {
    ParseAfterFormat(v);
    ParseAfterFormat(w);
  }

  /** FormatAmountMicros, with its own branch for the value whose negation does not fit. */
  method FormatAmountMicros(v: int) returns (s: string)
    requires IsInt64(v)
    ensures s == Format(v)
  {
    var abs := v;
    if v < 0 {
      if v == MIN_INT64 {
        var whole := -v;
        return "-" + (DigitsOf(whole / MICROS_PER_UNIT) + "." + SixDigits(whole % MICROS_PER_UNIT));
      }
      abs := -v;
    }
    var prefix := "";
    if v < 0 { prefix := "-"; }
    return prefix + (DigitsOf(abs / MICROS_PER_UNIT) + "." + SixDigits(abs % MICROS_PER_UNIT));
  }

  /******* Parsing step by step *******/

  function Points(s: string): nat {
    if s == "" then 0 else Points(s[..|s| - 1]) + (if s[|s| - 1] == '.' then 1 else 0)
  }

  lemma {:induction false} PointsOfConcat(a: string, b: string)
    ensures Points(a + b) == Points(a) + Points(b)
  {
    if b == "" {
      assert a + b == a;
    } else {
      assert (a + b)[..|a + b| - 1] == a + b[..|b| - 1];
      PointsOfConcat(a, b[..|b| - 1]);
    }
  }

  lemma {:induction false} NoPoints(s: string)
    requires forall i :: 0 <= i < |s| ==> s[i] != '.'
    ensures Points(s) == 0
  {
    if s != "" { NoPoints(s[..|s| - 1]); }
  }

  /** A text with two points has one in its fraction. */
  lemma TwoPointsRefused(s: string)
    requires Points(s) > 1
    ensures !WellformedDecimal(SplitDecimal(s))
  {
    var d := SplitDecimal(s);
    NoPoints(d.whole);
    if WellformedDecimal(d) {
      NoPoints(d.fraction);
      SplitDecimalSpells(s);
      PointsOfConcat(d.whole + (if d.point then "." else ""), d.fraction);
      PointsOfConcat(d.whole, if d.point then "." else "");
    }
  }

  method CountPoints(s: string) returns (n: nat)
    ensures n == Points(s)
  {
    n := 0;
    for i := 0 to |s|
      invariant n == Points(s[..i])
    {
      assert s[..i + 1][..i] == s[..i];
      if s[i] == '.' { n := n + 1; }
    }
    assert s[..|s|] == s;
  }

  method AllDigits(s: string) returns (ok: bool)
    ensures ok == Digits(s)
  {
    for i := 0 to |s|
      invariant Digits(s[..i])
    {
      if s[i] < '0' || s[i] > '9' { return false; }
    }
    return true;
  }

  /** Reads digits after dropping leading zeros. */
  method ReadNumber(s: string) returns (n: int)
    requires Digits(s)
    ensures n == Number(s)
  {
    var rest := s;
    while rest != "" && rest[0] == '0'
      invariant Digits(rest) && Number(rest) == Number(s)
      decreases |rest|
    {
      assert rest == "0" + rest[1..];
      NumberOfConcat("0", rest[1..]);
      assert Number("0") == 0;
      rest := rest[1..];
    }
    n := 0;
    for i := 0 to |rest|
      invariant n == Number(rest[..i])
    {
      assert rest[..i + 1][..i] == rest[..i];
      n := 10 * n + DigitOf(rest[i]);
    }
    assert rest[..|rest|] == rest;
  }

  /** Padding the fraction to six places and reading everything as one number gives the micros. */
  lemma PaddedNumber(d: Decimal)
    requires |d.fraction| <= 6
    ensures Number(d.whole + (d.fraction + Zeros(6 - |d.fraction|))) == DecimalMicros(d)
  {
    var pad := Zeros(6 - |d.fraction|);
    NumberOfConcat(d.whole, d.fraction + pad);
    NumberOfConcat(d.fraction, pad);
    NumberOfZeros(|pad|);
    Million();
  }

  /** The same when an empty whole part is read as a zero. */
  lemma PaddedWhole(d: Decimal, whole: string)
    requires |d.fraction| <= 6 && whole == (if d.whole == "" then "0" else d.whole)
    ensures Number(whole + (d.fraction + Zeros(6 - |d.fraction|))) == DecimalMicros(d)
    ensures Digits(whole) <==> Digits(d.whole)
  {
    PaddedNumber(d.(whole := whole));
    assert Number("0") == 0;
  }

  function DecimalValue(s: string): Option<int> {
    var d := SplitDecimal(s);
    if WellformedDecimal(d) then Some(DecimalMicros(d)) else None
  }

  method ReadDecimal(s: string) returns (r: Option<int>)
    requires s != ""
    ensures r == DecimalValue(s)
  {
    var points := CountPoints(s);
    if points > 1 {
      TwoPointsRefused(s);
      return None;
    }
    var d := SplitDecimal(s);
    if |d.fraction| > 6 { return None; }
    var whole := d.whole;
    if whole == "" { whole := "0"; }
    PaddedWhole(d, whole);
    var ok := AllDigits(whole);
    if !ok { return None; }
    ok := AllDigits(d.fraction);
    if !ok { return None; }
    var padded := d.fraction + Zeros(6 - |d.fraction|);
    var n := ReadNumber(whole + padded);
    return Some(n);
  }

  /** ParseAmountMicros after trimming. */
  method ParseVisibleAmount(s: string) returns (r: Option<int>)
    requires s != ""
    ensures r == ParseTrimmed(s)
  {
    var value := s;
    var negative := false;
    if value[0] == '+' || value[0] == '-' {
      if value[0] == '-' { negative := true; }
      value := value[1..];
    }
    if value == "" { return None; }
    var n := ReadDecimal(value);
    if n.None? { return None; }
    var integer := n.value;
    if negative { integer := -integer; }
    if !IsInt64(integer) { return None; }
    return Some(integer);
  }

  /** ParseAmountMicros. */
  method ParseAmountMicros(text: string) returns (r: Option<int>)
    ensures r == Parse(text)
  {
    var value := TrimSpace(text);
    if value == "" {
      assert ParseTrimmed("").None?;
      return None;
    }
    r := ParseVisibleAmount(value);
  }
}
