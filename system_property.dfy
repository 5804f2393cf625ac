/** The first-API-level eligibility test: the property value is read and
    parsed with C's `atoi`, and the result is compared with 32. */
module SystemProperty {
  import opened Int32Codec

  const FIRST_API_LEVEL: string := "ro.product.first_api_level"

  /** The characters C's `isspace` accepts in the "C" locale. */
  predicate IsSpace(c: char) {
    c == ' ' || c == '\t' || c == '\n' || c == '\U{B}' || c == '\U{C}' || c == '\r'
  }

  predicate IsDigit(c: char) {
    '0' <= c <= '9'
  }

  predicate AllDigits(s: string) {
    forall i :: 0 <= i < |s| ==> IsDigit(s[i])
  }

  /** The input after its leading white space. */
  function SkipSpaces(s: string): (t: string)
    ensures |t| <= |s| && t == s[|s| - |t|..]
    ensures t == [] || !IsSpace(t[0])
    ensures forall i :: 0 <= i < |s| - |t| ==> IsSpace(s[i])
  {
    if s != [] && IsSpace(s[0]) then SkipSpaces(s[1..]) else s
  }

  /** The length of the longest run of digits at the start of `s`. */
  function DigitRun(s: string): (n: nat)
    ensures n <= |s|
    ensures AllDigits(s[..n])
    ensures n == |s| || !IsDigit(s[n])
  {
    if s != [] && IsDigit(s[0]) then
      var n := 1 + DigitRun(s[1..]);
      assert forall i :: 1 <= i < n ==> s[..n][i] == s[1..][..n - 1][i - 1];
      n
    else 0
  }

  /** The decimal value of a string of digits. */
  function DigitsValue(d: string): nat
    requires AllDigits(d)
  {
    if d == [] then 0 else 10 * DigitsValue(d[..|d| - 1]) + (d[|d| - 1] - '0') as int
  }

  /** The value of the digits that start `s` (0 when there are none). */
  function LeadingValue(s: string): nat {
    DigitsValue(s[..DigitRun(s)])
  }

  /** `atoi`: optional white space, an optional sign and the longest run of
      decimal digits after it; anything else ends the number, and no digits
      give 0. (The value is mathematical here: where it does not fit an
      `int`, C leaves the behaviour undefined, and callers exclude it.) */
  function Atoi(s: string): (r: int)
    // only a minus sign after the white space makes the value negative
    ensures r < 0 ==> SkipSpaces(s) != [] && SkipSpaces(s)[0] == '-'
    // with neither a sign nor a digit after the white space, the value is 0
    ensures var t := SkipSpaces(s);
      t == [] || (t[0] != '-' && t[0] != '+' && !IsDigit(t[0])) ==> r == 0
  {
    var t := SkipSpaces(s);
    if t != [] && (t[0] == '-' || t[0] == '+') then
      var v := LeadingValue(t[1..]);
      if t[0] == '-' then -(v as int) else v
    else LeadingValue(t)
  }

  /** `isFirstApiLevelGreater32`, given what `__system_property_get`
      returned (the value's length, or 0 when the property is unset) and
      the value it copied out. */
  function FirstApiLevelGreater32(readLength: int, value: string): (r: bool)
    requires readLength >= 1 ==> InInt32Range(Atoi(value))
    ensures readLength < 1 ==> !r
    ensures readLength >= 1 ==> (r <==> Atoi(value) > 32)
  {
    if readLength < 1 then false else Atoi(value) > 32
  }

  /** The decimal numeral of `n`, without leading zeros. */
  function Numeral(n: nat): (s: string)
    ensures s != [] && AllDigits(s)
  {
    var d := ['0' + (n % 10) as char];
    if n < 10 then d else Numeral(n / 10) + d
  }

  lemma {:induction false} NumeralValue(n: nat)
    ensures DigitsValue(Numeral(n)) == n
  {
    var s := Numeral(n);
    if n >= 10 {
      NumeralValue(n / 10);
      assert s[..|s| - 1] == Numeral(n / 10);
    }
  }

  /** The digit run of a numeral followed by a non-digit is the numeral. */
  lemma {:induction false} DigitRunOfNumeral(d: string, rest: string)
    requires d != [] && AllDigits(d)
    requires rest == [] || !IsDigit(rest[0])
    ensures DigitRun(d + rest) == |d|
  {
    if |d| > 1 {
      assert (d + rest)[1..] == d[1..] + rest;
      DigitRunOfNumeral(d[1..], rest);
    } else {
      assert (d + rest)[1..] == rest;
    }
  }

  /** The digits that start a numeral followed by a non-digit have the
      numeral's value. */
  lemma LeadingValueOfNumeral(n: nat, rest: string)
    requires rest == [] || !IsDigit(rest[0])
    ensures LeadingValue(Numeral(n) + rest) == n
  {
    DigitRunOfNumeral(Numeral(n), rest);
    assert (Numeral(n) + rest)[..|Numeral(n)|] == Numeral(n);
    NumeralValue(n);
  }

  lemma {:induction false} SkipSpacesPrefix(spaces: string, t: string)
    requires forall i :: 0 <= i < |spaces| ==> IsSpace(spaces[i])
    requires t == [] || !IsSpace(t[0])
    ensures SkipSpaces(spaces + t) == t
  {
    if spaces != [] {
      assert (spaces + t)[1..] == spaces[1..] + t;
      SkipSpacesPrefix(spaces[1..], t);
    }
  }

  /** `atoi` reads back the value of any numeral, after any white space and
      before any text that does not start with a digit. */
  lemma AtoiNumeral(spaces: string, n: nat, rest: string)
    requires forall i :: 0 <= i < |spaces| ==> IsSpace(spaces[i])
    requires rest == [] || !IsDigit(rest[0])
    ensures Atoi(spaces + Numeral(n) + rest) == n
  {
    assert spaces + Numeral(n) + rest == spaces + (Numeral(n) + rest);
    SkipSpacesPrefix(spaces, Numeral(n) + rest);
    LeadingValueOfNumeral(n, rest);
  }

  /** A leading minus sign negates the value of the digits after it; a
      leading plus sign keeps it. */
  lemma AtoiSign(d: string)
    ensures Atoi(['-'] + d) == -(LeadingValue(d) as int)
    ensures Atoi(['+'] + d) == LeadingValue(d)
  {
    var minus, plus := ['-'] + d, ['+'] + d;
    assert minus[0] == '-' && minus[1..] == d && SkipSpaces(minus) == minus;
    assert plus[0] == '+' && plus[1..] == d && SkipSpaces(plus) == plus;
  }

  lemma AtoiNegativeNumeral(n: nat)
    ensures Atoi(['-'] + Numeral(n)) == -(n as int)
  {
    AtoiSign(Numeral(n));
    LeadingValueOfNumeral(n, []);
    assert Numeral(n) + [] == Numeral(n);
  }

  /** For a property holding the numeral of `level`, the predicate is true
      exactly when `level` is above 32. */
  lemma FirstApiLevelOfNumeral(level: nat)
    requires level <= INT32_MAX
    ensures InInt32Range(Atoi(Numeral(level)))
    ensures FirstApiLevelGreater32(|Numeral(level)|, Numeral(level)) <==> level > 32
  {
    assert [] + Numeral(level) + [] == Numeral(level);
    AtoiNumeral([], level, []);
  }

  /** `atoi` of a two-digit numeral. */
  lemma AtoiTwoDigits(tens: nat, ones: nat)
    requires 1 <= tens <= 9 && ones <= 9
    ensures Atoi(['0' + tens as char, '0' + ones as char]) == 10 * tens + ones
  {
    var n := 10 * tens + ones;
    assert n / 10 == tens && n % 10 == ones;
    assert Numeral(n) == ['0' + tens as char, '0' + ones as char];
    assert [] + Numeral(n) + [] == Numeral(n);
    AtoiNumeral([], n, []);
  }

  lemma AtoiOfLevels()
    ensures Atoi("33") == 33 && Atoi("32") == 32 && Atoi("30") == 30
  {
    AtoiTwoDigits(3, 3);
    assert ['0' + 3 as char, '0' + 3 as char] == "33";
    AtoiTwoDigits(3, 2);
    assert ['0' + 3 as char, '0' + 2 as char] == "32";
    AtoiTwoDigits(3, 0);
    assert ['0' + 3 as char, '0' + 0 as char] == "30";
  }

  /** The values a device reports: 33 is eligible, 32 and 30 are not, and
      an unset property (length 0) never is. */
  lemma FirstApiLevelExamples()
    ensures Atoi("33") == 33 && FirstApiLevelGreater32(2, "33")
    ensures Atoi("32") == 32 && !FirstApiLevelGreater32(2, "32")
    ensures Atoi("30") == 30 && !FirstApiLevelGreater32(2, "30")
    ensures !FirstApiLevelGreater32(0, "")
  {
    AtoiOfLevels();
  }
}
