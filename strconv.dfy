/** Decimal text for unsigned and signed integers, as Go's
    `strconv.ParseUint(s, 10, 64)` reads it and `fmt`'s `%d` writes it. */
module Strconv {
  import opened Outcomes

  const MaxUint64: nat := 0xFFFF_FFFF_FFFF_FFFF

  predicate IsDigit(c: char) {
    '0' <= c <= '9'
  }

  predicate AllDigits(s: string) {
    forall i :: 0 <= i < |s| ==> IsDigit(s[i])
  }

  function DigitValue(c: char): (d: nat)
    requires IsDigit(c)
    ensures d < 10
  {
    c as int - '0' as int
  }

  function DigitChar(d: nat): (c: char)
    requires d < 10
    ensures IsDigit(c) && DigitValue(c) == d
  {
    ('0' as int + d) as char
  }

  /** The number a string of decimal digits denotes, most significant digit
      first; leading zeros are allowed. */
  function DigitsValue(s: string): nat
    requires AllDigits(s)
  {
    if s == [] then 0 else DigitsValue(s[..|s| - 1]) * 10 + DigitValue(s[|s| - 1])
  }

  /** The two failures of `strconv.ParseUint`: a character that is not a
      digit of the base (or an empty string), and a value beyond 64 bits. */
  datatype NumError = ErrSyntax | ErrRange

  /** `strconv.ParseUint(s, 10, 64)`: the text must be non-empty, all decimal
      digits (no sign, no underscore), and at most 2^64 - 1. */
  function ParseUint64(s: string): (r: Result<nat, NumError>)
    ensures r.Ok? <==> s != [] && AllDigits(s) && DigitsValue(s) <= MaxUint64
    ensures r.Ok? ==> r.value == DigitsValue(s)
  {
    if s == [] then Err(ErrSyntax)
    else
      assert s[..0] == [];
      ParseFromCorrect(s, 0, 0);
      ParseFrom(s, 0, 0)
  }

  /** The digit loop of `ParseUint`, left to right: whichever comes first,
      a bad character or an overflow, decides the error. */
  function ParseFrom(s: string, i: nat, acc: nat): Result<nat, NumError>
    requires i <= |s|
    decreases |s| - i
  {
    if i == |s| then Ok(acc)
    else if !IsDigit(s[i]) then Err(ErrSyntax)
    else if acc * 10 + DigitValue(s[i]) > MaxUint64 then Err(ErrRange)
    else ParseFrom(s, i + 1, acc * 10 + DigitValue(s[i]))
  }

  lemma {:induction false} DigitsValuePrefix(s: string, k: nat)
    requires AllDigits(s) && k <= |s|
    ensures AllDigits(s[..k]) && DigitsValue(s[..k]) <= DigitsValue(s)
  {
    if k < |s| {
      var p := s[..|s| - 1];
      assert s[..k] == p[..k];
      DigitsValuePrefix(p, k);
    } else {
      assert s[..k] == s;
    }
  }

  lemma {:induction false} ParseFromCorrect(s: string, i: nat, acc: nat)
    requires i <= |s| && AllDigits(s[..i]) && acc == DigitsValue(s[..i]) && acc <= MaxUint64
    ensures ParseFrom(s, i, acc).Ok? <==> AllDigits(s) && DigitsValue(s) <= MaxUint64
    ensures ParseFrom(s, i, acc).Ok? ==> ParseFrom(s, i, acc).value == DigitsValue(s)
    decreases |s| - i
  {
    if i == |s| {
      assert s[..i] == s;
    } else if !IsDigit(s[i]) {
      assert !AllDigits(s);
    } else {
      var next := s[..i + 1];
      assert next[..i] == s[..i];
      assert AllDigits(next);
      assert DigitsValue(next) == acc * 10 + DigitValue(s[i]);
      if acc * 10 + DigitValue(s[i]) > MaxUint64 {
        if AllDigits(s) {
          DigitsValuePrefix(s, i + 1);
        }
      } else {
        ParseFromCorrect(s, i + 1, acc * 10 + DigitValue(s[i]));
      }
    }
  }

  /** `strconv.FormatUint(n, 10)`: the shortest decimal text of `n`. */
  function FormatUint(n: nat): (r: string)
    ensures r != [] && AllDigits(r) && DigitsValue(r) == n
    ensures r[0] == '0' ==> r == "0"
  {
    if n < 10 then [DigitChar(n)]
    else
      var p := FormatUint(n / 10);
      var r := p + [DigitChar(n % 10)];
      assert r[..|r| - 1] == p;
      r
  }

  /** `fmt.Sprintf("%d", n)` for a signed integer. */
  function FormatInt(n: int): (r: string)
    ensures r != [] && (r[0] == '-' <==> n < 0)
    ensures n < 0 ==> AllDigits(r[1..]) && DigitsValue(r[1..]) == -n
    ensures n >= 0 ==> AllDigits(r) && DigitsValue(r) == n
    ensures var digits := if n < 0 then r[1..] else r; digits[0] == '0' ==> digits == "0"
  {
    if n < 0 then "-" + FormatUint(-n) else FormatUint(n)
  }

  lemma ParseFormatRoundTrip(n: nat)
    requires n <= MaxUint64
    ensures ParseUint64(FormatUint(n)) == Ok(n)
  {
  }
}
