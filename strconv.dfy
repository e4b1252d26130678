/** Go's `strconv.Atoi`, the decimal parser that reads integer environment variables,
    and the decimal form it reads back. */
module Strconv {
  import opened Wrappers
  import opened GoInts

  predicate IsDigit(c: char) {
    '0' <= c <= '9'
  }

  predicate AllDigits(s: string) {
    forall i :: 0 <= i < |s| ==> IsDigit(s[i])
  }

  /** The value of a run of decimal digits, most significant digit first. */
  function DecimalValue(s: string): nat
    requires AllDigits(s)
    decreases |s|
  {
    if s == [] then 0 else DecimalValue(s[..|s| - 1]) * 10 + (s[|s| - 1] as int - '0' as int)
  }

  /** The text after an optional leading '+' or '-'. */
  function Unsigned(s: string): string {
    if |s| > 0 && (s[0] == '+' || s[0] == '-') then s[1..] else s
  }

  /** An optional sign followed by one or more decimal digits. */
  predicate WellFormed(s: string) {
    Unsigned(s) != [] && AllDigits(Unsigned(s))
  }

  /** The integer a well-formed text denotes, negative exactly after a leading '-'. */
  function SignedValue(s: string): int
    requires WellFormed(s)
  {
    if s[0] == '-' then -(DecimalValue(Unsigned(s)) as int) else DecimalValue(Unsigned(s))
  }

  /** `strconv.Atoi(s)`: an optional sign followed by one or more decimal digits whose value
      fits in Go's 64-bit `int`; anything else (empty text, a bare sign, any other character,
      an out-of-range value) is an error, written `None`. */
  function Atoi(s: string): (r: Option<int64>)
    ensures r.Some? <==> WellFormed(s) && -0x8000_0000_0000_0000 <= SignedValue(s) < 0x8000_0000_0000_0000
    ensures r.Some? ==> r.value as int == SignedValue(s)
    ensures r.Some? ==> (r.value < 0 ==> s[0] == '-')
  {
    var digits := Unsigned(s);
    if digits == [] || !AllDigits(digits) then None
    else
      var v: int := if s[0] == '-' then -(DecimalValue(digits) as int) else DecimalValue(digits);
      if -0x8000_0000_0000_0000 <= v < 0x8000_0000_0000_0000 then Some(v as int64) else None
  }

  /** The decimal digits of `n`, most significant first, with no leading zero. */
  function Digits(n: nat): (s: string)
    ensures |s| > 0 && AllDigits(s)
    decreases n
  {
    if n < 10 then ['0' + n as char] else Digits(n / 10) + ['0' + (n % 10) as char]
  }

  /** The decimal form of `n` as `strconv.Itoa` writes it: a '-' for negatives, then the digits. */
  function FormatInt(n: int64): string {
    if n < 0 then "-" + Digits(-(n as int)) else Digits(n as int)
  }

  lemma {:induction false} DigitsValue(n: nat)
    ensures DecimalValue(Digits(n)) == n
    decreases n
  {
    if n >= 10 {
      var s := Digits(n);
      assert s[..|s| - 1] == Digits(n / 10);
      DigitsValue(n / 10);
    }
  }

  /** Reading back what was written: `Atoi(Itoa(n)) == n` for every 64-bit `n`. */
  lemma AtoiFormatInt(n: int64)
    ensures Atoi(FormatInt(n)) == Some(n)
  {
    var s := FormatInt(n);
    if n < 0 {
      assert Unsigned(s) == Digits(-(n as int));
      DigitsValue(-(n as int));
    } else {
      assert Unsigned(s) == Digits(n as int);
      DigitsValue(n as int);
    }
  }

  /** Text with a character that is neither a digit nor a leading sign never parses. */
  lemma AtoiRejectsNonDigit(s: string, i: nat)
    requires i < |s| && !IsDigit(s[i])
    requires i > 0 || (s[0] != '+' && s[0] != '-')
    ensures Atoi(s) == None
  {
    if i > 0 && |s| > 0 && (s[0] == '+' || s[0] == '-') {
      assert Unsigned(s)[i - 1] == s[i];
    }
  }

  /** A leading zero does not change the value of a run of digits. */
  lemma {:induction false} DecimalValueLeadingZero(d: string)
    requires AllDigits(d)
    ensures AllDigits(['0'] + d) && DecimalValue(['0'] + d) == DecimalValue(d)
    decreases |d|
  {
    var e := ['0'] + d;
    assert AllDigits(e) by {
      forall i | 0 <= i < |e| ensures IsDigit(e[i]) {
        if i > 0 { assert e[i] == d[i - 1]; }
      }
    }
    if d != [] {
      assert e[..|e| - 1] == ['0'] + d[..|d| - 1];
      DecimalValueLeadingZero(d[..|d| - 1]);
    }
  }

  /** Leading zeros are read past, after a sign or without one: "007" reads as 7, "-007" as -7. */
  lemma AtoiLeadingZero(sign: string, d: string)
    requires sign == "" || sign == "+" || sign == "-"
    requires d != [] && AllDigits(d)
    ensures Atoi(sign + ['0'] + d) == Atoi(sign + d)
  {
    DecimalValueLeadingZero(d);
    assert Unsigned(sign + ['0'] + d) == ['0'] + d;
    assert Unsigned(sign + d) == d;
  }

  /** A leading '+' is accepted and changes nothing: "+5" reads as 5. */
  lemma AtoiPlusSign(d: string)
    requires d != [] && AllDigits(d)
    ensures Atoi("+" + d) == Atoi(d)
  {
    assert Unsigned("+" + d) == d;
  }

  /** A value beyond Go's 64-bit `int` is refused, whichever sign it carries:
      "9223372036854775808" does not parse, while "-9223372036854775808" does. */
  lemma AtoiRejectsOutOfRange(n: nat)
    requires 0x8000_0000_0000_0000 <= n
    ensures Atoi(Digits(n)) == None
    ensures 0x8000_0000_0000_0000 < n ==> Atoi("-" + Digits(n)) == None
  {
    DigitsValue(n);
    assert Unsigned("-" + Digits(n)) == Digits(n);
  }
}
