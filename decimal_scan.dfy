/**
 * The `%d` conversion applied to a value token: an optional sign followed by
 * the longest run of decimal digits. A token with no digit after the sign
 * converts nothing, and the scanned variable is then left as it was.
 */
module DecimalScan {
  import opened Options

  predicate IsDigit(c: char) {
    '0' <= c <= '9'
  }

  /** Length of the run of digits that starts the string. */
  function DigitRun(s: string): (n: nat)
    ensures n <= |s|
    ensures forall i :: 0 <= i < n ==> IsDigit(s[i])
    ensures n < |s| ==> !IsDigit(s[n])
  {
    if s != [] && IsDigit(s[0]) then 1 + DigitRun(s[1..]) else 0
  }

  /** Value of a string of digits, most significant first. */
  function DigitsValue(ds: string): nat
    requires forall i :: 0 <= i < |ds| ==> IsDigit(ds[i])
  {
    if ds == [] then 0
    else
      var last := ds[|ds| - 1];
      assert IsDigit(last);
      DigitsValue(ds[..|ds| - 1]) * 10 + (last as int - '0' as int)
  }

  /** Whether the sign character, if any, is followed by at least one digit. */
  predicate HasDigits(tok: string) {
    var body := if tok != [] && (tok[0] == '-' || tok[0] == '+') then tok[1..] else tok;
    body != [] && IsDigit(body[0])
  }

  /** `%d` on a token: `None` when the conversion fails and assigns nothing. */
  function ScanDecimal(tok: string): (r: Option<int>)
    ensures r.Some? <==> HasDigits(tok)
  {
    var signed := tok != [] && (tok[0] == '-' || tok[0] == '+');
    var body := if signed then tok[1..] else tok;
    var n := DigitRun(body);
    var magnitude: int := if n == 0 then 0 else DigitsValue(body[..n]);
    if n == 0 then None
    else if signed && tok[0] == '-' then Some(-magnitude)
    else Some(magnitude)
  }

  function Digit(d: nat): char
    requires d < 10
  {
    ('0' as int + d) as char
  }

  /** Decimal digits of a natural number, most significant first. */
  function Digits(n: nat): (ds: string)
    ensures ds != []
    ensures forall i :: 0 <= i < |ds| ==> IsDigit(ds[i])
  {
    if n < 10 then [Digit(n)] else Digits(n / 10) + [Digit(n % 10)]
  }

  /** The text `printf("%d")` produces: a minus sign for negatives, then the digits. */
  function FormatDecimal(n: int): string {
    if n < 0 then "-" + Digits(-n) else Digits(n)
  }

  lemma {:induction false} DigitsValueOfDigits(n: nat)
    ensures DigitsValue(Digits(n)) == n
  {
    var ds := Digits(n);
    if n >= 10 {
      DigitsValueOfDigits(n / 10);
      assert ds[..|ds| - 1] == Digits(n / 10);
    }
  }

  lemma {:induction false} DigitRunOfDigits(ds: string, rest: string)
    requires forall i :: 0 <= i < |ds| ==> IsDigit(ds[i])
    requires rest == [] || !IsDigit(rest[0])
    ensures DigitRun(ds + rest) == |ds|
  {
    if ds != [] {
      assert (ds + rest)[1..] == ds[1..] + rest;
      DigitRunOfDigits(ds[1..], rest);
    }
  }

  /**
   * Scanning what `%d` prints gets the number back, whatever non-digit text
   * follows it in the token.
   */
  lemma ScanFormatRoundTrip(n: int, rest: string)
    requires rest == [] || !IsDigit(rest[0])
    ensures ScanDecimal(FormatDecimal(n) + rest) == Some(n)
  {
    if n < 0 {
      ScanUnsigned(-n, rest);
      var body := Digits(-n) + rest;
      assert FormatDecimal(n) + rest == ['-'] + body;
      assert (['-'] + body)[1..] == body;
    } else {
      ScanUnsigned(n, rest);
    }
  }

  /** The digit run of a formatted natural number is exactly its digits. */
  lemma ScanUnsigned(m: nat, rest: string)
    requires rest == [] || !IsDigit(rest[0])
    ensures DigitRun(Digits(m) + rest) == |Digits(m)|
    ensures (Digits(m) + rest)[..|Digits(m)|] == Digits(m)
    ensures DigitsValue(Digits(m)) == m
    ensures ScanDecimal(Digits(m) + rest) == Some(m)
  {
    var ds := Digits(m);
    DigitRunOfDigits(ds, rest);
    DigitsValueOfDigits(m);
    assert (ds + rest)[..|ds|] == ds;
    assert IsDigit((ds + rest)[0]);
  }
}
