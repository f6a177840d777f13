/** When the packed keys and ids of a batch tell its records and rows apart. */
module Keys {
  import opened Packing
  import opened Decimal
  import opened Ordered
  import opened Decoder
  import opened Rows

  /** A bound on the files of one batch that keeps the map keys below the sign bit. */
  const MAX_FILES := 5_000_000

  /** Two tags of two files share a map key exactly when their distance makes up for the file distance. */
  lemma KeyCollision(f1: int, t1: int, f2: int, t2: int)
    requires 1 <= f1 <= MAX_FILES && 1 <= f2 <= MAX_FILES
    requires -0x8000 <= t1 <= 0x7fff && -0x8000 <= t2 <= 0x7fff
    ensures MapKey(f1, t1) == MapKey(f2, t2) <==> t1 - t2 == MAX_TAGS_PRO_IMAGE * (f2 - f1)
  {
  }

  /** With tags in 0..399 the key stands for the file and the tag. */
  lemma KeysSeparate(f1: int, t1: int, f2: int, t2: int)
    requires 1 <= f1 <= MAX_FILES && 1 <= f2 <= MAX_FILES
    requires 0 <= t1 < MAX_TAGS_PRO_IMAGE && 0 <= t2 < MAX_TAGS_PRO_IMAGE
    ensures MapKey(f1, t1) == MapKey(f2, t2) <==> f1 == f2 && t1 == t2
  {
    KeyCollision(f1, t1, f2, t2);
  }

  /** Tag 400 of one file is filed under tag 0 of the next. */
  lemma KeysMerge(f: int)
    requires 1 <= f < MAX_FILES
    ensures MapKey(f, 400) == MapKey(f + 1, 0)
  {
    KeyCollision(f, 400, f + 1, 0);
  }

  // ---------- time order ----------

  /** What counts of an offset: its first two digits. */
  function OffsetDigits(offset: string): string {
    if |offset| > 2 then offset[..2] else offset
  }

  /** A moment after the experiment began, with a readable offset, early enough for 64 bits. */
  predicate ProperTime(env: Environment, date: string, offset: string) {
    && env.experimentBegin <= env.epoch(date) < 0x1_0000_0000_0000
    && offset != [] && AllDigits(OffsetDigits(offset))
  }

  /** An earlier second, or the same second and smaller first two digits of the offset. */
  predicate Earlier(env: Environment, date1: string, offset1: string, date2: string, offset2: string)
    requires AllDigits(OffsetDigits(offset1)) && AllDigits(OffsetDigits(offset2))
  {
    || env.epoch(date1) < env.epoch(date2)
    || (env.epoch(date1) == env.epoch(date2) && Value(OffsetDigits(offset1)) < Value(OffsetDigits(offset2)))
  }

  lemma CentisecsOf(env: Environment, date: string, offset: string)
    requires ProperTime(env, date, offset)
    ensures Value(OffsetDigits(offset)) < 100
    ensures Centisecs(env, date, offset) == (env.epoch(date) - env.experimentBegin) * 100 + Value(OffsetDigits(offset))
  {
    hide Value, Stoi;
    ValueBound(OffsetDigits(offset));
    StoiOfDigits(OffsetDigits(offset));
  }

  /** The packed ids of two pictures are in the order of their times, to the hundredth of a second. */
  lemma IdsInTimeOrder(env: Environment, date1: string, offset1: string, x1: int, y1: int, cam1: int, tag1: int,
                       date2: string, offset2: string, x2: int, y2: int, cam2: int, tag2: int)
    requires ProperTime(env, date1, offset1) && ProperTime(env, date2, offset2)
    requires Packable(Centisecs(env, date1, offset1), x1, y1, cam1, tag1)
    requires Packable(Centisecs(env, date2, offset2), x2, y2, cam2, tag2)
    requires Earlier(env, date1, offset1, date2, offset2)
    ensures RecordId(Centisecs(env, date1, offset1), x1, y1, cam1, tag1)
          < RecordId(Centisecs(env, date2, offset2), x2, y2, cam2, tag2)
  {
    hide RecordId, Value, Centisecs;
    CentisecsOf(env, date1, offset1);
    CentisecsOf(env, date2, offset2);
    RecordIdOrder(Centisecs(env, date1, offset1), x1, y1, cam1, tag1, Centisecs(env, date2, offset2), x2, y2, cam2, tag2);
  }

  // ---------- primary keys ----------

  /** The record fields fit their bits, and so do those of the candidate. */
  predicate InRange(d: Detection) {
    && Packable(d.stamp.centisecs, d.candidate.x, d.candidate.y, d.stamp.camID, d.tag)
    && 0 <= d.cand < 4 && 0 <= d.grid < 4
  }

  predicate AllInRange(ds: seq<Detection>) {
    forall i :: 0 <= i < |ds| ==> InRange(ds[i])
  }

  /** No two files of the batch were taken by the same camera in the same hundredth of a second. */
  predicate DistinctShots(env: Environment, names: seq<string>)
    requires AllWellNamed(names)
  {
    forall i, j :: 0 <= i < j < |names| ==>
      StampOf(env, names[i]).Shot() != StampOf(env, names[j]).Shot()
  }

  /** A file does not repeat a decoding. */
  predicate DistinctDecodings(ds: seq<Detection>) {
    forall i, j :: 0 <= i < j < |ds| && ds[i].fileNum == ds[j].fileNum ==>
      (ds[i].tag, ds[i].cand, ds[i].grid) != (ds[j].tag, ds[j].cand, ds[j].grid)
  }

  /** What the batch's csv files must be like for the two primary keys to hold. */
  predicate CleanBatch(env: Environment, names: seq<string>, csv: map<string, seq<string>>) {
    && AllWellNamed(names) && |names| <= MAX_FILES
    && DistinctShots(env, names)
    && BatchDetections(env, names, csv).Some?
    && AllInRange(BatchDetections(env, names, csv).value)
    && DistinctDecodings(BatchDetections(env, names, csv).value)
  }

  lemma {:induction false} SelectOrigin(ds: seq<Detection>, key: int, i: nat) returns (p: nat)
    requires i < |Select(ds, key)|
    ensures p < |ds| && ds[p] == Select(ds, key)[i] && ds[p].Key() == key
  {
    var before := Select(ds[..|ds| - 1], key);
    if i < |before| {
      p := SelectOrigin(ds[..|ds| - 1], key, i);
    } else {
      p := |ds| - 1;
    }
  }

  lemma {:induction false} SelectOrder(ds: seq<Detection>, key: int, i: nat, j: nat) returns (p: nat, q: nat)
    requires i < j < |Select(ds, key)|
    ensures p < q < |ds| && ds[p] == Select(ds, key)[i] && ds[q] == Select(ds, key)[j]
    ensures ds[p].Key() == key && ds[q].Key() == key
  {
    var before := Select(ds[..|ds| - 1], key);
    if j < |before| {
      p, q := SelectOrder(ds[..|ds| - 1], key, i, j);
    } else {
      p := SelectOrigin(ds[..|ds| - 1], key, i);
      q := |ds| - 1;
    }
  }

  /** Two records of a clean batch never share an id. */
  lemma RecordIdsDistinct(env: Environment, names: seq<string>, csv: map<string, seq<string>>, k1: int, k2: int)
    requires CleanBatch(env, names, csv)
    requires var data := Grouped(BatchDetections(env, names, csv).value); k1 in data && k2 in data && k1 != k2
    ensures var data := Grouped(BatchDetections(env, names, csv).value); data[k1].id != data[k2].id
  {
    var ds := BatchDetections(env, names, csv).value;
    GroupedIsGroupBy(ds, k1);
    GroupedIsGroupBy(ds, k2);
    var p := SelectOrigin(ds, k1, 0);
    var q := SelectOrigin(ds, k2, 0);
    BatchOrigin(env, names, csv, p);
    BatchOrigin(env, names, csv, q);
    SameIdSameShot(ds[p], ds[q]);
    ShotsApart(env, names, ds[p].fileNum - 1, ds[q].fileNum - 1);
  }

  lemma SameIdSameShot(a: Detection, b: Detection)
    requires FromLine(a.fileNum, a.stamp, a) && FromLine(b.fileNum, b.stamp, b)
    requires InRange(a) && InRange(b)
    ensures a.id == b.id ==> a.stamp.Shot() == b.stamp.Shot() && a.tag == b.tag
  {
    if a.id == b.id {
      RecordIdInjective(a.stamp.centisecs, a.candidate.x, a.candidate.y, a.stamp.camID, a.tag,
                        b.stamp.centisecs, b.candidate.x, b.candidate.y, b.stamp.camID, b.tag);
    }
  }

  lemma ShotsApart(env: Environment, names: seq<string>, i: nat, j: nat)
    requires AllWellNamed(names) && DistinctShots(env, names) && i < |names| && j < |names|
    ensures i != j ==> StampOf(env, names[i]).Shot() != StampOf(env, names[j]).Shot()
  {
  }

  /** Two candidates of one record of a clean batch never share a candidate id. */
  lemma CandidateIdsDistinct(env: Environment, names: seq<string>, csv: map<string, seq<string>>, key: int, i: nat, j: nat)
    requires CleanBatch(env, names, csv)
    requires var data := Grouped(BatchDetections(env, names, csv).value);
             key in data && i < j && i in data[key].candidate && j in data[key].candidate
    ensures var c := Grouped(BatchDetections(env, names, csv).value)[key].candidate; c[i].tag != c[j].tag
  {
    var ds := BatchDetections(env, names, csv).value;
    GroupedIsGroupBy(ds, key);
    var sel := Select(ds, key);
    NumberedAt(Candidates(sel));
    CandidateAt(sel, i);
    CandidateAt(sel, j);
    var p, q := SelectOrder(ds, key, i, j);
    BatchOrigin(env, names, csv, p);
    BatchOrigin(env, names, csv, q);
    assert InRange(ds[p]) && InRange(ds[q]);
    KeysSeparate(ds[p].fileNum, ds[p].tag, ds[q].fileNum, ds[q].tag);
    if sel[i].candidate.tag == sel[j].candidate.tag {
      CandidateIdInjective(ds[p].tag, ds[p].cand, ds[p].grid, ds[q].tag, ds[q].cand, ds[q].grid);
    }
  }

  lemma {:induction false} CandidateAt(sel: seq<Detection>, i: nat)
    requires i < |sel|
    ensures Candidates(sel)[i] == sel[i].candidate
  {
    if i < |sel| - 1 {
      CandidateAt(sel[..|sel| - 1], i);
    }
  }
}
