/** Binary numerals of bee ids: `bin2dec` (lib.cpp) and `strtoul(..., 2)` (main.cpp). */
module Binary {
  import opened Decimal
  import opened Powers

  const LONG_MAX := 0x7fff_ffff_ffff_ffff
  const ULONG_SIZE := 0x1_0000_0000_0000_0000

  predicate IsBit(c: char) {
    c == '0' || c == '1'
  }

  predicate Bits(s: string) {
    forall c :: c in s ==> IsBit(c)
  }

  /** The number a bit string denotes, read from left to right. */
  function Base2(s: string): nat
    requires Bits(s)
  {
    if s == [] then 0
    else
      var last := s[|s| - 1];
      assert last in s;
      Base2(s[..|s| - 1]) * 2 + if last == '1' then 1 else 0
  }

  /** The bits behind the leading zeros. */
  function Significant(s: string): string {
    if s != [] && s[0] == '0' then Significant(s[1..]) else s
  }

  /** `atol`: blanks, an optional sign, the digits that follow; saturating, and 0 without a digit. */
  function Atol(s: string): int {
    var t := SkipSpaces(s);
    var body := if t != [] && (t[0] == '-' || t[0] == '+') then t[1..] else t;
    var n: int := Value(body[..DigitRun(body)]);
    if t != [] && t[0] == '-' then (if n <= LONG_MAX + 1 then -n else -LONG_MAX - 1)
    else if n <= LONG_MAX then n else LONG_MAX
  }

  /** The decimal digits of a number, weighted with powers of two. */
  function Weighed(n: nat): nat {
    if n == 0 then 0 else n % 10 + 2 * Weighed(n / 10)
  }

  /** What every longer numeral yields: the weighed digits of LONG_MAX. */
  const SATURATED := Weighed(LONG_MAX)

  /**
   * The right-to-left loop over decimal digits, for any text: it weighs the digits of
   * what `atol` reads, and yields 0 for a negative number. On a bit string this is its
   * base-2 value, up to 19 significant bits. The `assert` is the `int` range of `base`
   * and `dec`: the loop never overflows.
   */
  method Bin2Dec(s: string) returns (dec: int)
    ensures dec == if Atol(s) <= 0 then 0 else Weighed(Atol(s))
    ensures Bits(s) ==> dec == if |Significant(s)| <= 19 then Base2(s) else SATURATED
  {
    hide Atol, Base2, Significant, SATURATED, Weighed, Pow2, Pow10, Bits;
    AtolRange(s);
    var bin := Atol(s);
    var base := 1;
    dec := 0;
    if bin > 0 {
      ghost var left: nat := 19;
      ghost var goal, weight, power := Weighed(bin), Weighed(bin), Pow2(19);
      Literals();
      while bin > 0
        invariant 0 <= bin < Pow10(left) && power == Pow2(left)
        invariant 0 < base <= 0x8_0000 && base * power == 0x8_0000
        invariant 0 <= dec <= 9 * (base - 1)
        invariant weight == Weighed(bin) && dec + base * weight == goal
      {
        DigitGone(bin, left);
        var rem := bin % 10;
        left := left - 1;
        Turn(dec, base, rem, weight, Weighed(bin / 10), power, Pow2(left));
        weight, power := Weighed(bin / 10), Pow2(left);
        dec := dec + rem * base;
        base := base * 2;
        bin := bin / 10;
        assert base <= INT_MAX && dec <= INT_MAX;
      }
      NothingWeighed();
      TimesZero(base, weight);
    }
    if Bits(s) {
      WeighedBits(s);
    }
  }

  lemma AtolRange(s: string)
    ensures -LONG_MAX - 1 <= Atol(s) <= LONG_MAX
  {
  }

  /** On a bit string `atol` reads all of it as a decimal number. */
  lemma AtolOfBits(s: string)
    requires Bits(s)
    ensures AllDigits(s)
    ensures Atol(s) == if Value(s) <= LONG_MAX then Value(s) else LONG_MAX
  {
    BitsAreDigits(s);
    DigitRunOf(s, []);
    assert s + [] == s && s[..|s|] == s;
    if s != [] {
      assert IsBit(s[0]);
      assert SkipSpaces(s) == s;
    }
  }

  lemma WeighedBits(s: string)
    requires Bits(s)
    ensures (if Atol(s) <= 0 then 0 else Weighed(Atol(s))) == if |Significant(s)| <= 19 then Base2(s) else SATURATED
  {
    hide Atol, Significant, SATURATED;
    AtolOfBits(s);
    ValueOfBits(s);
    WeighedValue(s);
    SaturatedWeighs();
  }

  lemma SaturatedWeighs()
    ensures SATURATED == Weighed(LONG_MAX)
  {
    hide Weighed;
  }

  /** What one decimal digit less means for the bounds and for the weighed digits. */
  lemma DigitGone(bin: nat, left: nat)
    requires 0 < bin < Pow10(left)
    ensures left > 0 && bin / 10 < Pow10(left - 1)
    ensures Weighed(bin) == bin % 10 + 2 * Weighed(bin / 10) && Pow2(left) == 2 * Pow2(left - 1)
  {
  }

  lemma NothingWeighed()
    ensures Weighed(0) == 0
  {
  }

  /** The arithmetic of one turn; `power` is what is left of the bound 2^19 on `base`. */
  lemma Turn(dec: int, base: int, rem: int, weight: int, higher: int, power: int, half: int)
    requires 0 <= rem < 10 && base > 0 && half > 0
    requires weight == rem + 2 * higher && power == 2 * half && base * power == 0x8_0000
    ensures dec + base * weight == (dec + rem * base) + (base * 2) * higher
    ensures 0 <= rem * base <= 9 * base
    ensures (base * 2) * half == 0x8_0000 && base * 2 <= 0x8_0000
  {
    assert base * weight == base * rem + base * (2 * higher);
    assert base * (2 * higher) == (base * 2) * higher;
    assert base * (2 * half) == (base * 2) * half;
    AtLeastFactor(base * 2, half);
  }

  lemma TimesZero(a: int, b: int)
    requires b == 0
    ensures a * b == 0
  {
  }

  lemma BitsAreDigits(s: string)
    requires Bits(s)
    ensures AllDigits(s)
  {
  }

  lemma {:induction false} WeighedValue(s: string)
    requires Bits(s) && AllDigits(s)
    ensures Weighed(Value(s)) == Base2(s)
  {
    if s != [] {
      assert s[|s| - 1] in s;
      WeighedValue(s[..|s| - 1]);
    }
  }

  /** A bit string fits a `long`, read as decimal, exactly when it has at most 19 significant bits. */
  lemma {:induction false} ValueOfBits(s: string)
    requires Bits(s) && AllDigits(s)
    ensures Value(s) <= LONG_MAX <==> |Significant(s)| <= 19
  {
    var t := Significant(s);
    SignificantValue(s);
    DecimalBounds(t);
    Literals();
    if |t| <= 19 {
      Pow10Monotone(|t|, 19);
    } else {
      Pow10Monotone(19, |t| - 1);
    }
  }

  lemma {:induction false} SignificantValue(s: string)
    requires Bits(s) && AllDigits(s)
    ensures var t := Significant(s); Bits(t) && AllDigits(t) && Value(t) == Value(s) && Base2(t) == Base2(s)
    ensures var t := Significant(s); t != [] ==> t[0] == '1'
  {
    if s != [] {
      assert s[0] in s;
      if s[0] == '0' {
        DropZero(s);
        SignificantValue(s[1..]);
      }
    }
  }

  lemma {:induction false} DropZero(s: string)
    requires s != [] && s[0] == '0' && Bits(s) && AllDigits(s)
    ensures Value(s) == Value(s[1..]) && Base2(s) == Base2(s[1..])
  {
    if |s| > 1 {
      DropZero(s[..|s| - 1]);
      assert s[1..][..|s| - 2] == s[..|s| - 1][1..];
    } else {
      assert s[..0] == [];
    }
  }

  lemma {:induction false} DecimalBounds(t: string)
    requires Bits(t) && AllDigits(t)
    ensures 9 * Value(t) < Pow10(|t|)
    ensures t != [] && t[0] == '1' ==> Pow10(|t| - 1) <= Value(t)
  {
    if t != [] {
      assert t[|t| - 1] in t;
      DecimalBounds(t[..|t| - 1]);
    }
  }

  // ---------- the reading the importer stores ----------

  /** Length of the longest prefix of bits. */
  function BitRun(s: string): (k: nat)
    ensures k <= |s| && Bits(s[..k])
    ensures k < |s| ==> !IsBit(s[k])
  {
    if s == [] || !IsBit(s[0]) then 0
    else
      var k := 1 + BitRun(s[1..]);
      assert s[..k] == [s[0]] + s[1..][..k - 1];
      k
  }

  /** `(unsigned short) strtoul(s, NULL, 2)`: no error is possible, anything unreadable counts as 0. */
  function BeeId(s: string): (bee: nat)
    ensures bee < 65536
  {
    var t := SkipSpaces(s);
    var body := if t != [] && (t[0] == '-' || t[0] == '+') then t[1..] else t;
    var n := Base2(body[..BitRun(body)]);
    var v := if n < ULONG_SIZE then n else ULONG_SIZE - 1;
    (if n < ULONG_SIZE && t != [] && t[0] == '-' then -v else v) % 65536
  }

  lemma {:induction false} BitRunOfBits(s: string)
    requires Bits(s)
    ensures BitRun(s) == |s|
  {
    if s != [] {
      assert s[0] in s;
      BitRunOfBits(s[1..]);
    }
  }

  lemma {:induction false} Base2Bound(s: string)
    requires Bits(s)
    ensures Base2(s) < Pow2(|s|)
  {
    if s != [] {
      Base2Bound(s[..|s| - 1]);
    }
  }

  /**
   * On a bit string of at most 19 significant bits the stored id is the base-2
   * reading, the one `bin2dec` computes, cut to 16 bits; up to 16 bits nothing is cut.
   */
  lemma {:induction false} BeeIdOfBits(s: string)
    requires Bits(s) && |Significant(s)| <= 19
    ensures BeeId(s) == Base2(s) % 65536
    ensures |s| <= 16 ==> BeeId(s) == Base2(s)
  {
    Literals();
    assert Base2(s) < 0x8_0000 by {
      BitsAreDigits(s);
      SignificantValue(s);
      Base2Bound(Significant(s));
      Pow2Monotone(|Significant(s)|, 19);
    }
    BeeIdWhole(s);
    if |s| <= 16 {
      Base2Bound(s);
      Pow2Monotone(|s|, 16);
    }
  }

  lemma {:induction false} BeeIdWhole(s: string)
    requires Bits(s)
    ensures Base2(s) < ULONG_SIZE ==> BeeId(s) == Base2(s) % 65536
  {
    BitRunOfBits(s);
    assert s[..|s|] == s;
    if s != [] {
      assert s[0] in s;
    }
    assert SkipSpaces(s) == s;
  }
}
