/** What the columns of the two tables demand of a row (DBAccess.cpp, `createDecoderDataTableQuery`). */
module Columns {
  import opened Decimal
  import opened Sequences
  import opened Powers
  import opened Binary
  import opened Packing
  import opened Decoder
  import opened Rows
  import opened Sql

  predicate SmallInt(n: int) {
    -0x8000 <= n <= 0x7fff
  }

  predicate BigInt(n: int) {
    -0x8000_0000_0000_0000 <= n <= 0x7fff_ffff_ffff_ffff
  }

  function DaysIn(year: int, month: int): int {
    if month == 2 then (if year % 4 == 0 && (year % 100 != 0 || year % 400 == 0) then 29 else 28)
    else if month in {4, 6, 9, 11} then 30
    else 31
  }

  /** A calendar date with a four-digit year, and a time of day. */
  predicate IsMoment(t: Time) {
    && 1000 <= t.year <= 9999 && 1 <= t.month <= 12 && 1 <= t.day <= DaysIn(t.year, t.month)
    && 0 <= t.hour <= 23 && 0 <= t.min <= 59 && 0 <= t.sec <= 59
  }

  /** What may follow the point of the seconds. */
  predicate IsFraction(offset: string) {
    offset != [] && AllDigits(offset)
  }

  /** An optional minus sign, digits, a point, digits. */
  predicate IsDecimal(text: string) {
    var body := if text != [] && text[0] == '-' then text[1..] else text;
    var k := DigitRun(body);
    0 < k < |body| - 1 && body[k] == '.' && AllDigits(body[k + 1..])
  }

  predicate IsReal(r: Rotation) {
    r.Finite? ==> IsDecimal(r.text)
  }

  predicate TimeFits(timestamp: string, offset: string) {
    LongEnough(timestamp) && IsMoment(TimeOf(timestamp)) && IsFraction(offset)
  }

  predicate CandidateFits(c: Candidate) {
    && SmallInt(c.tag) && SmallInt(c.x) && SmallInt(c.y) && SmallInt(c.score) && SmallInt(c.bee)
    && IsReal(c.xRotation) && IsReal(c.yRotation) && IsReal(c.zRotation)
  }

  /** Every value of the row is in the range of its column's type, and its literals can be read. */
  predicate Fits(x: Item) {
    match x
    case MainItem(id, timestamp, offset, px, py, camID) =>
      BigInt(id) && TimeFits(timestamp, offset) && SmallInt(px) && SmallInt(py) && SmallInt(camID)
    case CandidateItem(_, row) => BigInt(row.id) && CandidateFits(row.candidate)
  }

  // ---------- which lines fit ----------

  /** The values of a line that the program does not itself keep in range. */
  predicate LineFits(d: Detection) {
    && d.candidate.bee <= 0x7fff
    && IsReal(d.candidate.xRotation) && IsReal(d.candidate.yRotation) && IsReal(d.candidate.zRotation)
  }

  /** Every line, and the time each is stored under, which is that of the last line with its key. */
  predicate Loadable(ds: seq<Detection>) {
    forall p :: 0 <= p < |ds| ==>
      LineFits(ds[p]) && TimeFits(LastOf(ds, ds[p]).stamp.timestamp, LastOf(ds, ds[p]).stamp.offset)
  }

  /** All lines come from the csv files of a batch. */
  predicate Parsed(ds: seq<Detection>) {
    forall p :: 0 <= p < |ds| ==> FromSomeFile(ds[p])
  }

  predicate FromSomeFile(d: Detection) {
    FromLine(d.fileNum, d.stamp, d) && SmallInt(d.stamp.camID)
  }

  lemma BatchParsed(env: Environment, names: seq<string>, csv: map<string, seq<string>>)
    requires AllWellNamed(names) && BatchDetections(env, names, csv).Some?
    ensures Parsed(BatchDetections(env, names, csv).value)
  {
    hide RecordId, CandidateId, BatchDetections, StampOf, WellNamed;
    var ds := BatchDetections(env, names, csv).value;
    forall p | 0 <= p < |ds|
      ensures FromSomeFile(ds[p])
    {
      BatchOrigin(env, names, csv, p);
      CameraRange(env, names[ds[p].fileNum - 1]);
    }
  }

  lemma CameraRange(env: Environment, name: string)
    requires WellNamed(name)
    ensures SmallInt(StampOf(env, name).camID)
  {
    hide WellNamed, Centisecs;
  }

  /** What the program keeps in range by itself. */
  lemma LineRanges(d: Detection)
    requires FromSomeFile(d)
    ensures CandidateFits(d.candidate) <==> LineFits(d)
    ensures BigInt(d.id) && SmallInt(d.candidate.x) && SmallInt(d.candidate.y) && SmallInt(d.stamp.camID)
  {
    hide IsReal, BitOr;
  }

  lemma SelectParsed(ds: seq<Detection>, d: Detection)
    requires Parsed(ds) && FromSomeFile(d)
    ensures FromSomeFile(FirstOf(ds, d))
  {
    hide FromSomeFile;
    if Select(ds, d.Key()) != [] {
      var p := SelectSource(ds, d.Key(), 0);
      assert FromSomeFile(ds[p]);
    }
  }

  lemma {:induction false} SelectSource(ds: seq<Detection>, key: int, i: nat) returns (p: nat)
    requires i < |Select(ds, key)|
    ensures p < |ds| && ds[p] == Select(ds, key)[i]
  {
    var before := Select(ds[..|ds| - 1], key);
    if i < |before| {
      p := SelectSource(ds[..|ds| - 1], key, i);
    } else {
      p := |ds| - 1;
    }
  }

  lemma LineItemsFit(ds: seq<Detection>, p: nat)
    requires Parsed(ds) && p < |ds|
    ensures (forall x :: x in LineItems(ds, p) ==> Fits(x)) <==>
            LineFits(ds[p])
            && (Select(ds[..p], ds[p].Key()) == [] ==>
                  TimeFits(LastOf(ds, ds[p]).stamp.timestamp, LastOf(ds, ds[p]).stamp.offset))
  {
    hide FromSomeFile, Select, FirstOf, LastOf, TimeFits, CandidateFits, LineFits, BigInt, SmallInt;
    var d, first := ds[p], FirstOf(ds, ds[p]);
    assert FromSomeFile(d);
    LineRanges(d);
    SelectParsed(ds, d);
    LineRanges(first);
    var last := LastOf(ds, d);
    var row := CandidateItem(Minute(last.stamp.timestamp), Row(first.id, d.candidate));
    assert row in LineItems(ds, p);
    if Select(ds[..p], d.Key()) == [] {
      var main := MainItem(d.id, last.stamp.timestamp, last.stamp.offset, d.candidate.x, d.candidate.y, d.stamp.camID);
      assert main in LineItems(ds, p);
    }
  }

  /** The first line with a key of `ds`. */
  lemma {:induction false} FirstPosition(ds: seq<Detection>, n: nat, key: int) returns (p: nat)
    requires 0 < n <= |ds| && Select(ds[..n], key) != []
    ensures p < n && ds[p].Key() == key && Select(ds[..p], key) == []
  {
    p := n - 1;
    SelectNext(ds, p, key);
    if Select(ds[..p], key) != [] {
      p := FirstPosition(ds, p, key);
    }
  }

  lemma {:induction false} ItemsSource(ds: seq<Detection>, n: nat, x: Item) returns (p: nat)
    requires n <= |ds| && x in ItemsUpTo(ds, n)
    ensures p < n && x in LineItems(ds, p)
  {
    hide LineItems;
    p := n - 1;
    if x !in LineItems(ds, p) {
      p := ItemsSource(ds, n - 1, x);
    }
  }

  lemma {:induction false} ItemsThere(ds: seq<Detection>, n: nat, p: nat, x: Item)
    requires p < n <= |ds| && x in LineItems(ds, p)
    ensures x in ItemsUpTo(ds, n)
  {
    hide LineItems;
    if p < n - 1 {
      ItemsThere(ds, n - 1, p, x);
    }
  }

  /** The rows of accepted lines fit the columns exactly when the lines are loadable. */
  lemma ItemsFit(ds: seq<Detection>)
    requires Parsed(ds)
    ensures (forall x :: x in AcceptedItems(ds) ==> Fits(x)) <==> Loadable(ds)
  {
    hide Fits, LineFits, TimeFits, Select, LastOf, LineItems, Parsed;
    if Loadable(ds) {
      forall x | x in AcceptedItems(ds)
        ensures Fits(x)
      {
        var p := ItemsSource(ds, |ds|, x);
        LineItemsFit(ds, p);
      }
    }
    if forall x :: x in AcceptedItems(ds) ==> Fits(x) {
      forall p | 0 <= p < |ds|
        ensures LineFits(ds[p]) && TimeFits(LastOf(ds, ds[p]).stamp.timestamp, LastOf(ds, ds[p]).stamp.offset)
      {
        FitsAt(ds, p);
      }
    }
  }

  lemma FitsAt(ds: seq<Detection>, p: nat)
    requires Parsed(ds) && p < |ds| && forall x :: x in AcceptedItems(ds) ==> Fits(x)
    ensures LineFits(ds[p]) && TimeFits(LastOf(ds, ds[p]).stamp.timestamp, LastOf(ds, ds[p]).stamp.offset)
  {
    hide Fits, LineFits, TimeFits, LineItems, Parsed, Select;
    LineFitsAt(ds, p);
    SelectHas(ds, |ds|, p);
    Whole(ds);
    var q := FirstPosition(ds, |ds|, ds[p].Key());
    SelectHas(ds, |ds|, q);
    SameLast(ds, ds[p], ds[q]);
    LineFitsAt(ds, q);
  }

  lemma {:induction false} SelectHas(ds: seq<Detection>, n: nat, p: nat)
    requires p < n <= |ds|
    ensures Select(ds[..n], ds[p].Key()) != []
  {
    SelectNext(ds, n - 1, ds[p].Key());
    if p < n - 1 {
      SelectHas(ds, n - 1, p);
    }
  }

  lemma LineFitsAt(ds: seq<Detection>, p: nat)
    requires Parsed(ds) && p < |ds| && forall x :: x in AcceptedItems(ds) ==> Fits(x)
    ensures LineFits(ds[p])
    ensures Select(ds[..p], ds[p].Key()) == [] ==>
              TimeFits(LastOf(ds, ds[p]).stamp.timestamp, LastOf(ds, ds[p]).stamp.offset)
  {
    hide Fits, LineFits, TimeFits, LineItems, Parsed, Select, LastOf;
    forall x | x in LineItems(ds, p)
      ensures Fits(x)
    {
      ItemsThere(ds, |ds|, p, x);
    }
    LineItemsFit(ds, p);
  }

  // ---------- bee ids that do not fit ----------

  /** A bee code of up to 16 bits fits its column exactly when at most 15 of them are significant. */
  lemma {:induction false} BeeFits(s: string)
    requires Bits(s) && |s| <= 16
    ensures BeeId(s) <= 0x7fff <==> |Significant(s)| <= 15
  {
    hide BeeId, Significant, Base2;
    Literals();
    BitsAreDigits(s);
    SignificantValue(s);
    SignificantShort(s);
    BeeIdOfBits(s);
    var t := Significant(s);
    Base2Bound(t);
    LeadingBit(t);
    if |t| <= 15 {
      Pow2Monotone(|t|, 15);
    }
  }

  lemma {:induction false} SignificantShort(s: string)
    ensures |Significant(s)| <= |s|
  {
    if s != [] && s[0] == '0' {
      SignificantShort(s[1..]);
    }
  }

  lemma {:induction false} LeadingBit(t: string)
    requires Bits(t)
    ensures t != [] && t[0] == '1' ==> Base2(t) >= Pow2(|t| - 1)
  {
    if |t| > 1 {
      LeadingBit(t[..|t| - 1]);
    }
  }
}
