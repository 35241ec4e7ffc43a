/** The three pieces of Rust's standard library text handling the fungible-token
    transfer relies on: `str::trim` (for the memo), `u128::to_string` (for the
    `amount` argument) and `str::parse::<u128>` (for the balance query's answer). */
module RustText {
  import opened Wrappers

  const U128_LIMIT: nat := 0x1_0000_0000_0000_0000_0000_0000_0000_0000

  type Uint128 = n: nat | n < U128_LIMIT

  // ---------------------------------------------------------------------------
  // Whitespace and trimming
  // ---------------------------------------------------------------------------

  /** The characters with the Unicode White_Space property. */
  const WHITESPACE: set<char> := {
    '\U{0009}', '\U{000A}', '\U{000B}', '\U{000C}', '\U{000D}', ' ', '\U{0085}', '\U{00A0}',
    '\U{1680}', '\U{2000}', '\U{2001}', '\U{2002}', '\U{2003}', '\U{2004}', '\U{2005}',
    '\U{2006}', '\U{2007}', '\U{2008}', '\U{2009}', '\U{200A}', '\U{2028}', '\U{2029}',
    '\U{202F}', '\U{205F}', '\U{3000}'
  }

  /** `char::is_whitespace`. */
  predicate IsWhitespace(c: char) {
    c in WHITESPACE
  }

  /** A string made of whitespace only (the empty string included). */
  predicate IsBlank(s: string) {
    forall i :: 0 <= i < |s| ==> IsWhitespace(s[i])
  }

  /** `str::trim_start`: drops the longest whitespace prefix. */
  function TrimStart(s: string): (r: string)
    ensures |r| <= |s| && r == s[|s| - |r|..]
    ensures IsBlank(s[..|s| - |r|])
    ensures r != [] ==> !IsWhitespace(r[0])
    ensures r == [] <==> IsBlank(s)
  {
    if s != [] && IsWhitespace(s[0]) then
      var r := TrimStart(s[1..]);
      assert s[..|s| - |r|] == [s[0]] + s[1..][..|s[1..]| - |r|];
      r
    else
      s
  }

  /** `str::trim_end`: drops the longest whitespace suffix. */
  function TrimEnd(s: string): (r: string)
    ensures |r| <= |s| && r == s[..|r|]
    ensures IsBlank(s[|r|..])
    ensures r != [] ==> !IsWhitespace(r[|r| - 1])
    ensures r == [] <==> IsBlank(s)
  {
    if s != [] && IsWhitespace(s[|s| - 1]) then
      var r := TrimEnd(s[..|s| - 1]);
      assert s[|r|..] == s[..|s| - 1][|r|..] + [s[|s| - 1]];
      r
    else
      s
  }

  /** `str::trim`: the slice left after dropping leading and trailing whitespace.
      It is empty exactly when the whole string is whitespace, and otherwise
      begins and ends with a non-whitespace character. */
  function Trim(s: string): (r: string)
    ensures r == [] <==> IsBlank(s)
    ensures r != [] ==> !IsWhitespace(r[0]) && !IsWhitespace(r[|r| - 1])
    ensures |r| <= |s|
  {
    TrimEnd(TrimStart(s))
  }

  // ---------------------------------------------------------------------------
  // Decimal digits
  // ---------------------------------------------------------------------------

  predicate IsDigit(c: char) {
    '0' <= c <= '9'
  }

  predicate AllDigits(s: string) {
    forall i :: 0 <= i < |s| ==> IsDigit(s[i])
  }

  function DigitValue(c: char): nat
    requires IsDigit(c)
  {
    c as int - '0' as int
  }

  function DigitChar(d: nat): char
    requires d < 10
  {
    ('0' as int + d) as char
  }

  /** The number a string of decimal digits denotes, most significant first. */
  function DigitsValue(s: string): nat
    requires AllDigits(s)
  {
    if s == [] then 0 else DigitsValue(s[..|s| - 1]) * 10 + DigitValue(s[|s| - 1])
  }

  /** `Display` of an unsigned integer: its decimal digits, with no sign and no
      leading zero (only zero itself is written "0"). */
  function DecimalString(n: nat): (r: string)
    ensures r != [] && AllDigits(r)
    ensures DigitsValue(r) == n
    ensures r[0] == '0' ==> r == "0"
  {
    if n < 10 then
      [DigitChar(n)]
    else
      var r := DecimalString(n / 10) + [DigitChar(n % 10)];
      assert r[..|r| - 1] == DecimalString(n / 10);
      r
  }

  /** The digits `u128::from_str` reads: everything after an optional leading '+'. */
  function UnsignedDigits(s: string): string {
    if |s| > 0 && s[0] == '+' then s[1..] else s
  }

  /** `str::parse::<u128>`: an optional '+', then one or more ASCII digits whose
      value is below 2^128; anything else (empty text, a sign alone, '-', any
      other character, an overflow) is an error. */
  function ParseU128(s: string): (r: Option<Uint128>)
    ensures r.Some? <==> var ds := UnsignedDigits(s);
                         ds != [] && AllDigits(ds) && DigitsValue(ds) < U128_LIMIT
    ensures r.Some? ==> AllDigits(UnsignedDigits(s)) && r.value == DigitsValue(UnsignedDigits(s))
  {
    var ds := UnsignedDigits(s);
    if ds == [] || !AllDigits(ds) then None
    else if DigitsValue(ds) < U128_LIMIT then Some(DigitsValue(ds))
    else None
  }

  /** Parsing what `to_string` prints gives the number back, for every u128. */
  lemma ParseDisplayRoundTrip(n: Uint128)
    ensures ParseU128(DecimalString(n)) == Some(n)
  {
  }

  /** Two numbers print differently: `to_string` loses nothing. */
  lemma DecimalStringInjective(m: nat, n: nat)
    requires DecimalString(m) == DecimalString(n)
    ensures m == n
  {
  }

  /** The first value past u128's range is refused rather than wrapped. */
  lemma ParseRejectsOverflow()
    ensures ParseU128(DecimalString(U128_LIMIT)) == None
  {
  }
}
