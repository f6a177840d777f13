/** Machine integers and the packed 64-bit record ids and 16-bit candidate ids (main.cpp). */
module Packing {
  import opened Powers

  /** Conversion to a signed type of 16, 32 or 64 bits. */
  function Short(n: int): (r: int)
    ensures -0x8000 <= r <= 0x7fff
    ensures -0x8000 <= n <= 0x7fff ==> r == n
  {
    (n + 0x8000) % 0x1_0000 - 0x8000
  }

  function Int32(n: int): (r: int)
    ensures -0x8000_0000 <= r <= 0x7fff_ffff
    ensures -0x8000_0000 <= n <= 0x7fff_ffff ==> r == n
  {
    (n + 0x8000_0000) % 0x1_0000_0000 - 0x8000_0000
  }

  function Int64(n: int): (r: int)
    ensures -0x8000_0000_0000_0000 <= r <= 0x7fff_ffff_ffff_ffff
    ensures -0x8000_0000_0000_0000 <= n <= 0x7fff_ffff_ffff_ffff ==> r == n
  {
    (n + 0x8000_0000_0000_0000) % 0x1_0000_0000_0000_0000 - 0x8000_0000_0000_0000
  }

  /** Wrapping early or late makes no difference. */
  lemma WrapTwice(a: int, b: int)
    ensures Int64((a % 0x1_0000_0000_0000_0000 + b) % 0x1_0000_0000_0000_0000) == Int64(a + b)
  {
    var m := 0x1_0000_0000_0000_0000;
    var q := a / m;
    assert a == q * m + a % m;
    var r := (a % m + b) / m;
    assert a % m + b == r * m + (a % m + b) % m;
  }

  function Abs(n: int): nat {
    if n < 0 then -n else n
  }

  /** Bitwise or of two's complement numbers, bit by bit. */
  function BitOr(a: int, b: int): int
    decreases Abs(a) + Abs(b)
  {
    if (a == 0 || a == -1) && (b == 0 || b == -1) then
      if a == -1 || b == -1 then -1 else 0
    else
      2 * BitOr(a / 2, b / 2) + if a % 2 == 1 || b % 2 == 1 then 1 else 0
  }

  function Shl(a: int, k: nat): int {
    a * Pow2(k)
  }

  lemma {:induction false} OrZero(a: int)
    ensures BitOr(a, 0) == a
    decreases Abs(a)
  {
    if a != 0 && a != -1 {
      OrZero(a / 2);
    }
  }

  /** Or-ing into the zero bits of a shifted number adds. */
  lemma {:induction false} OrIsSum(high: int, k: nat, low: nat)
    requires low < Pow2(k)
    ensures BitOr(Shl(high, k), low) == Shl(high, k) + low
    decreases k
  {
    if k == 0 {
      OrZero(high);
    } else {
      var a := Shl(high, k);
      assert a == 2 * Shl(high, k - 1);
      OrIsSum(high, k - 1, low / 2);
      if a == 0 && low == 0 {
      } else {
        assert BitOr(a, low) == 2 * BitOr(a / 2, low / 2) + low % 2;
      }
    }
  }

  // ---------- record ids ----------

  /** The loop that shrinks a tag to at most 255; `%` has a positive left operand here. */
  method ReduceTag(original: int) returns (tag: int)
    ensures tag == Reduced(original)
  {
    tag := original;
    while tag > 255
      invariant Reduced(tag) == Reduced(original)
      decreases tag
    {
      tag := tag % 255;
    }
  }

  function Reduced(tag: int): int {
    if tag > 255 then tag % 255 else tag
  }

  /** The tag a record id keeps is the detection's own tag exactly when that is at most 255; otherwise its remainder by 255. */
  lemma ReducedFaithful(tag: int)
    ensures Reduced(tag) <= 255
    ensures Reduced(tag) == tag <==> tag <= 255
    ensures tag > 255 ==> 0 <= Reduced(tag) < 255 && (tag - Reduced(tag)) % 255 == 0
    ensures tag > 255 ==> exists other :: 0 <= other <= 255 && Reduced(other) == Reduced(tag)
  {
    if tag > 255 {
      assert Reduced(tag % 255) == Reduced(tag);
    }
  }

  function Coord(x: int, y: int): int {
    y * 4000 + x
  }

  /** The record id: centiseconds, coordinate, camera and tag in one 64-bit word. */
  function RecordId(centisecs: int, x: int, y: int, cam: int, tag: int): int {
    Int64(BitOr(BitOr(BitOr(Shl(centisecs, 34), Shl(Coord(x, y), 10)), Shl(cam, 8)), Reduced(tag)))
  }

  method PackRecordId(centisecs: int, x: int, y: int, cam: int, original: int) returns (id: int)
    ensures id == RecordId(centisecs, x, y, cam, original)
  {
    var coord := y * 4000 + x;
    var tag := ReduceTag(original);
    id := Int64(BitOr(BitOr(BitOr(Shl(centisecs, 34), Shl(coord, 10)), Shl(cam, 8)), tag));
  }

  /** The field widths of a record id. */
  predicate Packable(centisecs: int, x: int, y: int, cam: int, tag: int) {
    && 0 <= centisecs < 0x2000_0000
    && 0 <= x < 4000 && 0 <= y && Coord(x, y) < 0x100_0000
    && 0 <= cam < 4
    && 0 <= tag <= 255
  }

  /** Within the field widths the packed word is the plain sum of the shifted fields. */
  lemma RecordIdIsSum(centisecs: int, x: int, y: int, cam: int, tag: int)
    requires Packable(centisecs, x, y, cam, tag)
    ensures RecordId(centisecs, x, y, cam, tag)
         == centisecs * 0x4_0000_0000 + Coord(x, y) * 0x400 + cam * 0x100 + tag
    ensures 0 <= RecordId(centisecs, x, y, cam, tag) < 0x8000_0000_0000_0000
  {
    var coord := Coord(x, y);
    OrCoord(centisecs, coord);
    OrCamera(centisecs * 0x100_0000 + coord, cam);
    OrTag((centisecs * 0x100_0000 + coord) * 4 + cam, tag);
  }

  lemma {:induction false} OrCoord(high: int, coord: nat)
    requires coord < 0x100_0000
    ensures BitOr(Shl(high, 34), Shl(coord, 10)) == (high * 0x100_0000 + coord) * 0x400
  {
    Literals();
    OrIsSum(high, 34, coord * 0x400);
  }

  lemma {:induction false} OrCamera(high: int, cam: nat)
    requires cam < 4
    ensures BitOr(high * 0x400, Shl(cam, 8)) == (high * 4 + cam) * 0x100
  {
    Literals();
    OrIsSum(high, 10, cam * 0x100);
  }

  lemma {:induction false} OrTag(high: int, tag: nat)
    requires tag <= 255
    ensures BitOr(high * 0x100, tag) == high * 0x100 + tag
  {
    Literals();
    OrIsSum(high, 8, tag);
  }

  /** Every field can be read back from the id. */
  lemma RecordIdDecodes(centisecs: int, x: int, y: int, cam: int, tag: int)
    requires Packable(centisecs, x, y, cam, tag)
    ensures var id := RecordId(centisecs, x, y, cam, tag);
            && id / 0x4_0000_0000 == centisecs
            && id / 0x400 % 0x100_0000 / 4000 == y
            && id / 0x400 % 0x100_0000 % 4000 == x
            && id / 0x100 % 4 == cam
            && id % 0x100 == tag
  {
    RecordIdIsSum(centisecs, x, y, cam, tag);
    DecodeFields(RecordId(centisecs, x, y, cam, tag), centisecs, Coord(x, y), cam, tag);
    RowColumn(Coord(x, y), y, x);
  }

  lemma DecodeFields(id: int, centisecs: int, coord: int, cam: int, tag: int)
    requires 0 <= coord < 0x100_0000 && 0 <= cam < 4 && 0 <= tag <= 255
    requires id == centisecs * 0x4_0000_0000 + coord * 0x400 + cam * 0x100 + tag
    ensures id / 0x4_0000_0000 == centisecs
    ensures id / 0x400 % 0x100_0000 == coord
    ensures id / 0x100 % 4 == cam && id % 0x100 == tag
  {
    var upper := centisecs * 0x100_0000 + coord;
    var middle := upper * 4 + cam;
    Above34(id, centisecs, coord * 0x400 + cam * 0x100 + tag);
    Above10(id, upper, cam * 0x100 + tag);
    Above24(upper, centisecs, coord);
    Above8(id, middle, tag);
    Above2(middle, upper, cam);
  }

  lemma Above34(n: int, high: int, low: int)
    requires 0 <= low < 0x4_0000_0000 && n == high * 0x4_0000_0000 + low
    ensures n / 0x4_0000_0000 == high
  {
  }

  lemma Above24(n: int, high: int, low: int)
    requires 0 <= low < 0x100_0000 && n == high * 0x100_0000 + low
    ensures n % 0x100_0000 == low
  {
  }

  lemma Above10(n: int, high: int, low: int)
    requires 0 <= low < 0x400 && n == high * 0x400 + low
    ensures n / 0x400 == high
  {
  }

  lemma Above8(n: int, high: int, low: int)
    requires 0 <= low < 0x100 && n == high * 0x100 + low
    ensures n / 0x100 == high && n % 0x100 == low
  {
  }

  lemma Above4(n: int, high: int, low: int)
    requires 0 <= low < 16 && n == high * 16 + low
    ensures n / 16 == high
  {
  }

  lemma Above2(n: int, high: int, low: int)
    requires 0 <= low < 4 && n == high * 4 + low
    ensures n / 4 == high && n % 4 == low
  {
  }

  lemma RowColumn(n: int, y: int, x: int)
    requires 0 <= x < 4000 && n == y * 4000 + x
    ensures n / 4000 == y && n % 4000 == x
  {
  }

  /** Two packable tuples with the same id are the same tuple. */
  lemma RecordIdInjective(c1: int, x1: int, y1: int, cam1: int, tag1: int, c2: int, x2: int, y2: int, cam2: int, tag2: int)
    requires Packable(c1, x1, y1, cam1, tag1) && Packable(c2, x2, y2, cam2, tag2)
    requires RecordId(c1, x1, y1, cam1, tag1) == RecordId(c2, x2, y2, cam2, tag2)
    ensures (c1, x1, y1, cam1, tag1) == (c2, x2, y2, cam2, tag2)
  {
    RecordIdDecodes(c1, x1, y1, cam1, tag1);
    RecordIdDecodes(c2, x2, y2, cam2, tag2);
  }

  /** Ids are ordered by time first. */
  lemma RecordIdOrder(c1: int, x1: int, y1: int, cam1: int, tag1: int, c2: int, x2: int, y2: int, cam2: int, tag2: int)
    requires Packable(c1, x1, y1, cam1, tag1) && Packable(c2, x2, y2, cam2, tag2)
    requires c1 < c2
    ensures RecordId(c1, x1, y1, cam1, tag1) < RecordId(c2, x2, y2, cam2, tag2)
  {
    RecordIdIsSum(c1, x1, y1, cam1, tag1);
    RecordIdIsSum(c2, x2, y2, cam2, tag2);
  }

  // ---------- candidate ids ----------

  function CandidateId(tag: int, cand: int, grid: int): int {
    Short(BitOr(BitOr(Shl(tag, 4), Shl(cand, 2)), grid))
  }

  lemma CandidateIdIsSum(tag: int, cand: int, grid: int)
    requires 0 <= tag < 2048 && 0 <= cand < 4 && 0 <= grid < 4
    ensures CandidateId(tag, cand, grid) == tag * 16 + cand * 4 + grid
  {
    Literals();
    OrIsSum(tag, 4, cand * 4);
    OrIsSum(tag * 4 + cand, 2, grid);
  }

  lemma CandidateIdDecodes(tag: int, cand: int, grid: int)
    requires 0 <= tag < 2048 && 0 <= cand < 4 && 0 <= grid < 4
    ensures var id := CandidateId(tag, cand, grid); id / 16 == tag && id / 4 % 4 == cand && id % 4 == grid
  {
    CandidateIdIsSum(tag, cand, grid);
    DecodeCandidate(CandidateId(tag, cand, grid), tag, cand, grid);
  }

  lemma DecodeCandidate(id: int, tag: int, cand: int, grid: int)
    requires 0 <= cand < 4 && 0 <= grid < 4
    requires id == tag * 16 + cand * 4 + grid
    ensures id / 16 == tag && id / 4 % 4 == cand && id % 4 == grid
  {
    Above4(id, tag, cand * 4 + grid);
    Above2(id, tag * 4 + cand, grid);
    Above2(tag * 4 + cand, tag, cand);
  }

  lemma CandidateIdInjective(t1: int, c1: int, g1: int, t2: int, c2: int, g2: int)
    requires 0 <= t1 < 2048 && 0 <= c1 < 4 && 0 <= g1 < 4
    requires 0 <= t2 < 2048 && 0 <= c2 < 4 && 0 <= g2 < 4
    requires CandidateId(t1, c1, g1) == CandidateId(t2, c2, g2)
    ensures (t1, c1, g1) == (t2, c2, g2)
  {
    CandidateIdDecodes(t1, c1, g1);
    CandidateIdDecodes(t2, c2, g2);
  }
}
