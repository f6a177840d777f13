/** Decimal numerals: `std::to_string`, `std::stoi`, `atoi` and fixed-width digit fields. */
module Decimal {
  import opened Wrappers

  const INT_MIN := -0x8000_0000
  const INT_MAX := 0x7fff_ffff

  predicate IsDigit(c: char) {
    '0' <= c <= '9'
  }

  /** The characters `isspace` accepts in the C locale: blank, and tab to carriage return. */
  predicate IsSpace(c: char) {
    c == ' ' || 9 as char <= c <= 13 as char
  }

  predicate AllDigits(s: string) {
    forall c :: c in s ==> IsDigit(c)
  }

  function DigitChar(n: nat): (c: char)
    requires n < 10
    ensures IsDigit(c) && c as int - '0' as int == n
  {
    '0' + n as char
  }

  /** The number a digit string denotes, read from left to right. */
  function Value(s: string): nat
    requires AllDigits(s)
  {
    if s == [] then 0
    else
      var last := s[|s| - 1];
      assert last in s;
      Value(s[..|s| - 1]) * 10 + (last as int - '0' as int)
  }

  function NatText(n: nat): string {
    if n < 10 then [DigitChar(n)] else NatText(n / 10) + [DigitChar(n % 10)]
  }

  /** `std::to_string` of an integer. */
  function IntText(n: int): string {
    if n < 0 then "-" + NatText(-n) else NatText(n)
  }

  /** The last `width` digits of a number, with leading zeros. */
  function Padded(n: nat, width: nat): string {
    if width == 0 then [] else Padded(n / 10, width - 1) + [DigitChar(n % 10)]
  }

  /** Length of the longest digit prefix. */
  function DigitRun(s: string): (k: nat)
    ensures k <= |s|
    ensures AllDigits(s[..k])
    ensures k < |s| ==> !IsDigit(s[k])
  {
    if s == [] || !IsDigit(s[0]) then 0
    else
      var k := 1 + DigitRun(s[1..]);
      assert s[..k] == [s[0]] + s[1..][..k - 1];
      k
  }

  /** An optional minus sign and a digit run: the number and the text behind it. */
  function ReadInt(s: string): Option<(int, string)> {
    var minus := s != [] && s[0] == '-';
    var body := if minus then s[1..] else s;
    var k := DigitRun(body);
    if k == 0 then None
    else
      var n: int := Value(body[..k]);
      Some((if minus then -n else n, body[k..]))
  }

  function SkipSpaces(s: string): string {
    if s != [] && IsSpace(s[0]) then SkipSpaces(s[1..]) else s
  }

  /**
   * `std::stoi`: leading blanks, an optional sign, digits; whatever follows is ignored.
   * None is a thrown `invalid_argument` (no digit) or `out_of_range`.
   */
  function Stoi(s: string): (r: Option<int>)
    ensures r.Some? ==> INT_MIN <= r.value <= INT_MAX
  {
    var t := SkipSpaces(s);
    var body := if t != [] && (t[0] == '-' || t[0] == '+') then t[1..] else t;
    var k := DigitRun(body);
    if k == 0 then None
    else
      var n: int := Value(body[..k]);
      var v := if t[0] == '-' then -n else n;
      if INT_MIN <= v <= INT_MAX then Some(v) else None
  }

  // ---------- numerals and numbers ----------

  lemma {:induction false} NatTextValue(n: nat)
    ensures NatText(n) != [] && AllDigits(NatText(n))
    ensures Value(NatText(n)) == n
  {
    if n >= 10 {
      NatTextValue(n / 10);
      assert NatText(n)[..|NatText(n)| - 1] == NatText(n / 10);
    } else {
      assert Value([DigitChar(n)][..0]) == 0;
    }
  }

  lemma {:induction false} DigitRunOf(digits: string, rest: string)
    requires AllDigits(digits)
    requires rest == [] || !IsDigit(rest[0])
    ensures DigitRun(digits + rest) == |digits|
  {
    var s := digits + rest;
    if digits == [] {
      assert s == rest;
    } else {
      assert digits[0] in digits;
      DigitRunOf(digits[1..], rest);
      assert s[1..] == digits[1..] + rest;
    }
  }

  /** A printed integer is read back whatever follows it, as long as that is no digit. */
  lemma ReadIntOfText(n: int, rest: string)
    requires rest == [] || !IsDigit(rest[0])
    ensures ReadInt(IntText(n) + rest) == Some((n, rest))
  {
    hide ReadInt, NatText;
    ReadNatOfText(if n < 0 then -n else n, rest);
    if n < 0 {
      assert IntText(n) + rest == "-" + (NatText(-n) + rest);
      ReadMinus(NatText(-n) + rest);
    }
  }

  lemma ReadNatOfText(n: nat, rest: string)
    requires rest == [] || !IsDigit(rest[0])
    ensures ReadInt(NatText(n) + rest) == Some((n as int, rest))
    ensures NatText(n) != [] && IsDigit(NatText(n)[0])
  {
    hide NatText, Value;
    var digits := NatText(n);
    var body := digits + rest;
    NatTextValue(n);
    DigitRunOf(digits, rest);
    assert body[..|digits|] == digits && body[|digits|..] == rest;
    assert body[0] == digits[0] && digits[0] in digits;
  }

  /** A minus sign in front of a number text negates it. */
  lemma ReadMinus(body: string)
    requires body != [] && IsDigit(body[0]) && ReadInt(body).Some?
    ensures ReadInt("-" + body) == Some((-ReadInt(body).value.0, ReadInt(body).value.1))
  {
    assert ("-" + body)[1..] == body;
  }

  /** `stoi` reads back every printed `int`. */
  lemma StoiOfText(n: int)
    requires INT_MIN <= n <= INT_MAX
    ensures Stoi(IntText(n)) == Some(n)
  {
    var digits := NatText(if n < 0 then -n else n);
    NatTextValue(if n < 0 then -n else n);
    DigitRunOf(digits, []);
    assert digits + [] == digits && digits[..|digits|] == digits;
    assert IsDigit(digits[0]);
    assert SkipSpaces(IntText(n)) == IntText(n);
    if n < 0 {
      assert IntText(n)[1..] == digits;
    }
  }

  /** On a non-empty digit string that fits an `int`, `stoi` is its value. */
  lemma StoiOfDigits(s: string)
    requires s != [] && AllDigits(s) && Value(s) <= INT_MAX
    ensures Stoi(s) == Some(Value(s))
  {
    assert IsDigit(s[0]);
    assert SkipSpaces(s) == s;
    DigitRunOf(s, []);
    assert s + [] == s && s[..|s|] == s;
  }

  lemma {:induction false} ValueBound(s: string)
    requires AllDigits(s) && |s| <= 4
    ensures Value(s) < 10000 && (|s| <= 2 ==> Value(s) < 100) && (|s| <= 1 ==> Value(s) < 10)
    ensures |s| <= 3 ==> Value(s) < 1000
  {
    if s != [] {
      assert s[|s| - 1] in s;
      ValueBound(s[..|s| - 1]);
    }
  }

  /** A fixed-width digit field is determined by its value. */
  lemma {:induction false} PaddedValue(s: string)
    requires AllDigits(s)
    ensures Padded(Value(s), |s|) == s
  {
    if s != [] {
      var init, last := s[..|s| - 1], s[|s| - 1];
      assert last in s;
      PaddedValue(init);
      assert s == init + [last];
    }
  }
}
