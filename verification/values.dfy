/**
 * Dynamically typed values (Go's `any`) as the context and configuration
 * parsers produce them, and the two `strconv` parsers the wrapper uses
 * directly: `Atoi` and `ParseBool`.
 */
module Values {
  import opened Base

  /**
   * A Go `any` as found in context and configuration maps. `Null` is the nil
   * interface value (and JSON null); `Int` is an `int` from strconv.Atoi;
   * `Float` is a float64, of which only the source text is kept (JSON numbers
   * decode to float64 too); `Obj` is a `map[string]any`.
   */
  datatype Value =
    | Null
    | Int(i: int)
    | Float(text: string)
    | Bool(b: bool)
    | Str(s: string)
    | Arr(items: seq<Value>)
    | Obj(fields: map<string, Value>)

  /** Go's `int` on a 64-bit platform. */
  const MinInt: int := -0x8000_0000_0000_0000
  const MaxInt: int := 0x7FFF_FFFF_FFFF_FFFF

  predicate IsDigit(c: char) {
    '0' <= c <= '9'
  }

  predicate AllDigits(s: string) {
    forall i :: 0 <= i < |s| ==> IsDigit(s[i])
  }

  function DigitsValue(ds: string): nat
    requires AllDigits(ds)
  {
    if |ds| == 0 then 0
    else DigitsValue(ds[..|ds| - 1]) * 10 + (ds[|ds| - 1] as int - '0' as int)
  }

  function Pow10(n: nat): nat {
    if n == 0 then 1 else 10 * Pow10(n - 1)
  }

  /** Positional reading, most significant digit first: the sum of d_i · 10^(|ds|−1−i). */
  function DecimalValue(ds: string): nat
    requires AllDigits(ds)
  {
    if |ds| == 0 then 0
    else (ds[0] as int - '0' as int) * Pow10(|ds| - 1) + DecimalValue(ds[1..])
  }

  lemma {:induction false} DecimalValueSnoc(ds: string, c: char)
    requires AllDigits(ds) && IsDigit(c)
    ensures AllDigits(ds + [c])
    ensures DecimalValue(ds + [c]) == DecimalValue(ds) * 10 + (c as int - '0' as int)
  {
    var t := ds + [c];
    assert forall i :: 0 <= i < |ds| ==> t[i] == ds[i];
    if |ds| > 0 {
      assert t[1..] == ds[1..] + [c];
      DecimalValueSnoc(ds[1..], c);
      var d := ds[0] as int - '0' as int;
      assert d * Pow10(|ds|) == d * Pow10(|ds| - 1) * 10;
    }
  }

  /** Reading the digits from the least significant end gives the positional value. */
  lemma {:induction false} DigitsValueIsDecimal(ds: string)
    requires AllDigits(ds)
    ensures DigitsValue(ds) == DecimalValue(ds)
  {
    if |ds| > 0 {
      var init := ds[..|ds| - 1];
      DigitsValueIsDecimal(init);
      DecimalValueSnoc(init, ds[|ds| - 1]);
      assert init + [ds[|ds| - 1]] == ds;
    }
  }

  /** The digits after an optional leading sign. */
  function Unsigned(s: string): string {
    if |s| > 0 && (s[0] == '+' || s[0] == '-') then s[1..] else s
  }

  /** −1 after a leading '-', otherwise +1. */
  function Sign(s: string): int {
    if |s| > 0 && s[0] == '-' then -1 else 1
  }

  /** The text is an optional sign and at least one digit, whose signed value fits in a 64-bit `int`. */
  predicate IsIntText(s: string) {
    && |Unsigned(s)| > 0 && AllDigits(Unsigned(s))
    && MinInt <= Sign(s) * DecimalValue(Unsigned(s)) <= MaxInt
  }

  /**
   * strconv.Atoi: an optional sign followed by at least one ASCII digit,
   * whose value fits in a 64-bit `int`; leading zeros and "+"/"-0" are accepted.
   */
  function Atoi(s: string): (r: Option<int>)
    ensures r.Some? <==> IsIntText(s)
    ensures r.Some? ==> r.value == Sign(s) * DecimalValue(Unsigned(s))
    ensures r.Some? ==> MinInt <= r.value <= MaxInt
    ensures r.Some? ==> |Unsigned(s)| > 0 && AllDigits(Unsigned(s))
    ensures r.Some? ==> (r.value < 0 ==> s[0] == '-')
  {
    var digits := Unsigned(s);
    if |digits| == 0 || !AllDigits(digits) then None
    else
      DigitsValueIsDecimal(digits);
      var v: int := DigitsValue(digits);
      var n := if s[0] == '-' then -v else v;
      if MinInt <= n <= MaxInt then Some(n) else None
  }

  function DigitChar(d: nat): (c: char)
    requires d < 10
    ensures IsDigit(c) && c as int - '0' as int == d
  {
    ('0' as int + d) as char
  }

  /** Decimal digits of a natural number, most significant first. */
  function Digits(n: nat): (ds: string)
    ensures |ds| > 0 && AllDigits(ds)
  {
    if n < 10 then [DigitChar(n)] else Digits(n / 10) + [DigitChar(n % 10)]
  }

  /** strconv.Itoa: a decimal rendering with a '-' for negative numbers. */
  function FormatInt(n: int): string {
    if n < 0 then "-" + Digits(-n) else Digits(n)
  }

  lemma {:induction false} DigitsValueOfDigits(n: nat)
    ensures DigitsValue(Digits(n)) == n
  {
    if n >= 10 {
      var ds := Digits(n);
      assert ds[..|ds| - 1] == Digits(n / 10);
      DigitsValueOfDigits(n / 10);
    }
  }

  /** Every 64-bit integer survives formatting and re-parsing. */
  lemma AtoiFormatInt(n: int)
    requires MinInt <= n <= MaxInt
    ensures Atoi(FormatInt(n)) == Some(n)
  {
    if n < 0 {
      assert Unsigned(FormatInt(n)) == Digits(-n);
      DigitsValueOfDigits(-n);
    } else {
      assert Unsigned(FormatInt(n)) == Digits(n);
      DigitsValueOfDigits(n);
    }
  }

  /** Explicit signs, as strconv.Atoi reads them. */
  lemma AtoiExamples()
    ensures Atoi("+5") == Some(5) && Atoi("-12") == Some(-12)
  {
    assert Unsigned("+5") == "5";
    assert Unsigned("-12") == "12" && "12"[1..] == "2";
  }

  /** Leading zeros and a negative zero are accepted. */
  lemma AtoiLeadingZeros()
    ensures Atoi("007") == Some(7) && Atoi("-0") == Some(0)
  {
    assert Unsigned("007") == "007" && "007"[1..] == "07" && "07"[1..] == "7";
    assert Unsigned("-0") == "0";
  }

  /** Texts strconv.Atoi refuses: nothing, a bare sign, a trailing letter, a leading space. */
  lemma AtoiRefuses()
    ensures Atoi("").None? && Atoi("-").None? && Atoi("1a").None? && Atoi(" 1").None?
  {
    assert Unsigned("-") == "";
    assert !IsDigit("1a"[1]) && !IsDigit(" 1"[0]);
  }

  /** strconv.ParseBool: 1, t, T, TRUE, true, True and their false counterparts. */
  function ParseBool(s: string): (r: Option<bool>)
    ensures r == Some(true) <==> s in {"1", "t", "T", "TRUE", "true", "True"}
    ensures r == Some(false) <==> s in {"0", "f", "F", "FALSE", "false", "False"}
  {
    if s in {"1", "t", "T", "TRUE", "true", "True"} then Some(true)
    else if s in {"0", "f", "F", "FALSE", "false", "False"} then Some(false)
    else None
  }
}
