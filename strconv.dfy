/**
 * Go's strconv.Atoi (base 10, into a 64-bit int) and the `%d` verb of fmt, which
 * the pagination code uses to read and echo its integer parameters.
 */
module Strconv {
  import opened Wrappers
  import opened GoInt

  /** The two failure kinds of strconv.NumError. */
  datatype NumError = ErrSyntax | ErrRange

  /** Atoi's two results: the value it returns and its error, as in Go. */
  datatype Parsed = Parsed(value: int, err: Option<NumError>)

  predicate IsDigit(c: char) {
    '0' <= c <= '9'
  }

  predicate AllDigits(s: string) {
    forall i :: 0 <= i < |s| ==> IsDigit(s[i])
  }

  /** The value of a string of decimal digits. */
  function DigitsValue(s: string): nat
    requires AllDigits(s)
  {
    if s == [] then 0 else 10 * DigitsValue(s[..|s| - 1]) + (s[|s| - 1] as int - '0' as int)
  }

  /** Length of the longest all-digit prefix of s. */
  function LeadingDigits(s: string): (k: nat)
    ensures k <= |s|
    ensures AllDigits(s[..k])
    ensures k < |s| ==> !IsDigit(s[k])
  {
    if s == [] || !IsDigit(s[0]) then 0
    else
      var k := 1 + LeadingDigits(s[1..]);
      assert s[..k] == [s[0]] + s[1..][..k - 1];
      k
  }

  /**
   * strconv.Atoi. An optional sign, then digits. A non-digit gives a syntax error
   * with value 0, unless the digits before it already exceed the uint64 range
   * (ParseUint notices the overflow first); a value outside the int64 range gives a
   * range error with the value clamped to the nearer bound.
   */
  function Atoi(s: string): (r: Parsed)
    ensures r.err.None? ==> InInt64(r.value)
    ensures r.err == Some(ErrSyntax) ==> r.value == 0
    ensures r.err == Some(ErrRange) ==> r.value == MIN_INT64 || r.value == MAX_INT64
  {
    if s == "" then Parsed(0, Some(ErrSyntax))
    else
      var neg := s[0] == '-';
      var body := if s[0] == '-' || s[0] == '+' then s[1..] else s;
      if body == "" then Parsed(0, Some(ErrSyntax))
      else
        var k := LeadingDigits(body);
        var v: int := DigitsValue(body[..k]);
        if v > MAX_UINT64 then Parsed(if neg then MIN_INT64 else MAX_INT64, Some(ErrRange))
        else if k < |body| then Parsed(0, Some(ErrSyntax))
        else if !neg && v > MAX_INT64 then Parsed(MAX_INT64, Some(ErrRange))
        else if neg && v > -MIN_INT64 then Parsed(MIN_INT64, Some(ErrRange))
        else Parsed(if neg then -v else v, None)
  }

  /** The text Atoi accepts: an optional sign followed by at least one digit. */
  predicate Numeral(s: string) {
    var body := if |s| > 0 && (s[0] == '-' || s[0] == '+') then s[1..] else s;
    |body| > 0 && AllDigits(body)
  }

  /** The integer a numeral denotes, before any range check. */
  function NumeralValue(s: string): int
    requires Numeral(s)
  {
    if s[0] == '-' then -(DigitsValue(s[1..]) as int)
    else if s[0] == '+' then DigitsValue(s[1..])
    else DigitsValue(s)
  }

  /** Decimal digits of a natural number, most significant first, no leading zeros. */
  function NatDigits(n: nat): (s: string)
    ensures |s| > 0 && AllDigits(s)
    ensures s[0] != '-' && s[0] != '+'
  {
    var d := [(n % 10 + '0' as int) as char];
    if n < 10 then d else NatDigits(n / 10) + d
  }

  /** fmt.Sprintf("%d", n). */
  function FormatInt(n: int): (s: string)
    ensures |s| > 0
    ensures forall i :: 0 <= i < |s| ==> s[i] == '-' || IsDigit(s[i])
  {
    if n < 0 then "-" + NatDigits(-n) else NatDigits(n)
  }

  lemma {:induction false} NatDigitsValue(n: nat)
    ensures DigitsValue(NatDigits(n)) == n
  {
    var s := NatDigits(n);
    if n >= 10 {
      NatDigitsValue(n / 10);
      assert s[..|s| - 1] == NatDigits(n / 10);
    }
  }

  lemma LeadingDigitsAll(s: string)
    requires AllDigits(s)
    ensures LeadingDigits(s) == |s|
  {
  }

  /** Atoi succeeds exactly on numerals whose value fits in an int64, and then returns that value. */
  lemma AtoiSucceeds(s: string)
    ensures Atoi(s).err.None? <==> Numeral(s) && InInt64(NumeralValue(s))
    ensures Atoi(s).err.None? ==> Atoi(s).value == NumeralValue(s)
  {
    if s != "" {
      var body := if s[0] == '-' || s[0] == '+' then s[1..] else s;
      if body != "" && AllDigits(body) {
        LeadingDigitsAll(body);
        assert body[..|body|] == body;
      }
    }
  }

  /** Reading back what %d wrote gives the same int64 without error. */
  lemma FormatIntRoundTrip(n: int)
    requires InInt64(n)
    ensures Atoi(FormatInt(n)) == Parsed(n, None)
  {
    var m: nat := if n < 0 then -n else n;
    NatDigitsValue(m);
    var s := FormatInt(n);
    if n < 0 {
      assert s[1..] == NatDigits(m);
    }
    AtoiSucceeds(s);
  }
}
