/** The records and candidate rows of a batch: nothing lost, nothing doubled. */
module Rows {
  import opened Wrappers
  import opened Bags
  import opened Ordered
  import opened Sequences
  import opened Decoder
  import opened Packing
  import opened Decimal
  import opened Delimited
  import opened Binary

  /** A row of the candidate table: the id of its record, and the candidate. */
  datatype Row = Row(id: int, candidate: Candidate)

  function Labelled(id: int, cs: seq<Candidate>): seq<Row> {
    if cs == [] then [] else Labelled(id, cs[..|cs| - 1]) + [Row(id, cs[|cs| - 1])]
  }

  /** The rows of a record in the order they are printed. */
  ghost function RecordRows(r: DecoderData): seq<Row> {
    Labelled(r.id, Values(r.candidate))
  }

  /**
   * A row of the main table with all its columns, or a row of the candidate table; each
   * with the timestamp or the minute that says which table it belongs to.
   */
  datatype Item =
    | MainItem(id: int, timestamp: string, offset: string, x: int, y: int, camID: int)
    | CandidateItem(minute: string, row: Row)

  /** The minute of the table an item belongs to. */
  function GroupOf(x: Item): string {
    match x
    case MainItem(_, timestamp, _, _, _, _) => Minute(timestamp)
    case CandidateItem(minute, _) => minute
  }

  /** The row of the main table a record is printed as. */
  function MainOf(r: DecoderData): Item {
    MainItem(r.id, r.timestamp, r.offset, r.x, r.y, r.camID)
  }

  function RowItems(minute: string, rows: seq<Row>): multiset<Item> {
    if rows == [] then multiset{}
    else RowItems(minute, rows[..|rows| - 1]) + multiset{CandidateItem(minute, rows[|rows| - 1])}
  }

  /** The rows of the candidate table a record is printed as. */
  ghost function CandidatesOf(r: DecoderData): multiset<Item> {
    RowItems(Minute(r.timestamp), RecordRows(r))
  }

  ghost function RecordItems(r: DecoderData): multiset<Item> {
    multiset{MainOf(r)} + CandidatesOf(r)
  }

  ghost function ItemMap(data: map<int, DecoderData>): map<int, multiset<Item>> {
    map key | key in data :: RecordItems(data[key])
  }

  /** The rows a map of records inserts into the main table, and those into the candidate table. */
  ghost function MainMap(data: map<int, DecoderData>): map<int, multiset<Item>> {
    map key | key in data :: multiset{MainOf(data[key])}
  }

  ghost function CandidateMap(data: map<int, DecoderData>): map<int, multiset<Item>> {
    map key | key in data :: CandidatesOf(data[key])
  }

  ghost function MainItems(data: map<int, DecoderData>): multiset<Item> {
    Total(MainMap(data))
  }

  ghost function CandidateItems(data: map<int, DecoderData>): multiset<Item> {
    Total(CandidateMap(data))
  }

  /** All that a map of records inserts into the two tables. */
  ghost function ItemBag(data: map<int, DecoderData>): multiset<Item> {
    Total(ItemMap(data))
  }

  /**
   * What the accepted lines deserve. Each line is one candidate row under the id of the
   * first line with its key; the first line with a key is also a row of the main table,
   * with its own id, position and camera. The time is that of the last line with the key.
   */
  function AcceptedItems(ds: seq<Detection>): multiset<Item> {
    ItemsUpTo(ds, |ds|)
  }

  function ItemsUpTo(ds: seq<Detection>, n: nat): multiset<Item>
    requires n <= |ds|
  {
    if n == 0 then multiset{} else ItemsUpTo(ds, n - 1) + LineItems(ds, n - 1)
  }

  /** What line `p` of `ds` deserves. */
  function LineItems(ds: seq<Detection>, p: nat): multiset<Item>
    requires p < |ds|
  {
    var d := ds[p];
    var first, last := FirstOf(ds, d), LastOf(ds, d);
    var row := CandidateItem(Minute(last.stamp.timestamp), Row(first.id, d.candidate));
    if Select(ds[..p], d.Key()) == [] then
      multiset{MainItem(d.id, last.stamp.timestamp, last.stamp.offset, d.candidate.x, d.candidate.y, d.stamp.camID), row}
    else
      multiset{row}
  }

  /** The first line of `ds` with the key of `d`, and the last. */
  function FirstOf(ds: seq<Detection>, d: Detection): Detection {
    var sel := Select(ds, d.Key());
    if sel == [] then d else sel[0]
  }

  function LastOf(ds: seq<Detection>, d: Detection): Detection {
    var sel := Select(ds, d.Key());
    if sel == [] then d else sel[|sel| - 1]
  }

  // ---------- grouping keeps the rows ----------

  lemma {:induction false} LabelledSnoc(id: int, cs: seq<Candidate>, c: Candidate)
    ensures Labelled(id, cs + [c]) == Labelled(id, cs) + [Row(id, c)]
  {
    assert (cs + [c])[..|cs|] == cs;
  }

  lemma RecordRowsOf(sel: seq<Detection>)
    requires sel != []
    ensures RecordRows(Record(sel)) == Labelled(sel[0].id, Candidates(sel))
  {
    NumberedValues(Candidates(sel));
  }

  lemma ItemMapPut(data: map<int, DecoderData>, key: int, r: DecoderData)
    ensures ItemMap(data[key := r]) == ItemMap(data)[key := RecordItems(r)]
  {
    hide RecordItems;
  }

  lemma ItemBagPut(data: map<int, DecoderData>, key: int, r: DecoderData)
    ensures ItemBag(data[key := r]) == RecordItems(r) + Total(ItemMap(data) - {key})
  {
    hide RecordItems, ItemMap, Total;
    ItemMapPut(data, key, r);
    TotalUpdate(ItemMap(data), key, RecordItems(r));
  }

  lemma ItemBagTake(data: map<int, DecoderData>, key: int)
    ensures ItemBag(data) == (if key in data then RecordItems(data[key]) else multiset{})
                            + Total(ItemMap(data) - {key})
  {
    hide RecordItems, Total;
    if key in data {
      TotalRemove(ItemMap(data), key);
    } else {
      assert ItemMap(data) - {key} == ItemMap(data);
    }
  }

  lemma {:induction false} RowItemsSnoc(minute: string, rows: seq<Row>, row: Row)
    ensures RowItems(minute, rows + [row]) == RowItems(minute, rows) + multiset{CandidateItem(minute, row)}
  {
    assert (rows + [row])[..|rows|] == rows;
  }

  /** What the record of `sel` will be once its last line has been filed. */
  function Timed(sel: seq<Detection>, last: Detection): DecoderData
    requires sel != []
  {
    Record(sel).(timestamp := last.stamp.timestamp, offset := last.stamp.offset)
  }

  /** The map after `n` lines, with the times it will have in the end. */
  function Built(ds: seq<Detection>, n: nat): map<int, DecoderData>
    requires n <= |ds|
  {
    if n == 0 then map[]
    else
      var d := ds[n - 1];
      Built(ds, n - 1)[d.Key() := Timed(Select(ds[..n - 1], d.Key()) + [d], LastOf(ds, d))]
  }

  lemma {:induction false} SelectPrefix(ds: seq<Detection>, n: nat, key: int)
    requires n <= |ds|
    ensures Select(ds[..n], key) <= Select(ds, key)
    decreases |ds|
  {
    if n < |ds| {
      SelectPrefix(ds[..|ds| - 1], n, key);
      assert ds[..|ds| - 1][..n] == ds[..n];
    } else {
      Whole(ds);
    }
  }

  lemma SelectNext(ds: seq<Detection>, n: nat, key: int)
    requires n < |ds|
    ensures Select(ds[..n + 1], key) == Select(ds[..n], key) + if ds[n].Key() == key then [ds[n]] else []
    ensures Select(ds[..n + 1], key) <= Select(ds, key)
  {
    Prefix(ds, n);
    SelectPrefix(ds, n + 1, key);
  }

  lemma SameLast(ds: seq<Detection>, d: Detection, e: Detection)
    requires d.Key() == e.Key() && Select(ds, d.Key()) != []
    ensures LastOf(ds, d) == LastOf(ds, e)
  {
  }

  lemma {:induction false} BuiltIsTimed(ds: seq<Detection>, n: nat, key: int, d: Detection)
    requires n <= |ds| && d.Key() == key
    ensures key in Built(ds, n) <==> Select(ds[..n], key) != []
    ensures key in Built(ds, n) ==> Built(ds, n)[key] == Timed(Select(ds[..n], key), LastOf(ds, d))
  {
    hide Timed;
    if n > 0 {
      hide Select, LastOf;
      var e := ds[n - 1];
      BuiltIsTimed(ds, n - 1, key, d);
      SelectNext(ds, n - 1, key);
      RightUnit(Select(ds[..n - 1], key));
      if e.Key() == key {
        SameLast(ds, d, e);
      }
    }
  }

  lemma {:induction false} BuiltIsGrouped(ds: seq<Detection>)
    ensures Built(ds, |ds|) == Grouped(ds)
  {
    hide Built, Grouped;
    Whole(ds);
    forall key | key in Built(ds, |ds|)
      ensures key in Grouped(ds) && Grouped(ds)[key] == Built(ds, |ds|)[key]
    {
      var d := KeyOrigin(ds, |ds|, key);
      BuiltIsTimed(ds, |ds|, key, d);
      GroupedIsGroupBy(ds, key);
    }
    forall key | key in Grouped(ds)
      ensures key in Built(ds, |ds|)
    {
      GroupedIsGroupBy(ds, key);
      SelectKeys(ds, key);
      BuiltIsTimed(ds, |ds|, key, Select(ds, key)[0]);
    }
    SameMap(Built(ds, |ds|), Grouped(ds));
  }

  lemma {:induction false} SelectKeys(ds: seq<Detection>, key: int)
    ensures forall i :: 0 <= i < |Select(ds, key)| ==> Select(ds, key)[i].Key() == key
  {
    if ds != [] {
      SelectKeys(ds[..|ds| - 1], key);
    }
  }

  lemma {:induction false} KeyOrigin(ds: seq<Detection>, n: nat, key: int) returns (d: Detection)
    requires n <= |ds| && key in Built(ds, n)
    ensures d.Key() == key
  {
    d := ds[n - 1];
    if d.Key() != key {
      d := KeyOrigin(ds, n - 1, key);
    }
  }

  lemma TimedItems(sel: seq<Detection>, last: Detection)
    requires sel != []
    ensures MainOf(Timed(sel, last))
         == MainItem(sel[0].id, last.stamp.timestamp, last.stamp.offset, sel[0].candidate.x, sel[0].candidate.y,
                     sel[0].stamp.camID)
    ensures CandidatesOf(Timed(sel, last)) == RowItems(Minute(last.stamp.timestamp), Labelled(sel[0].id, Candidates(sel)))
  {
    hide RowItems;
    RecordRowsOf(sel);
  }

  /** A record that gains a line gains exactly what the line deserves. */
  lemma {:induction false} LineJoins(ds: seq<Detection>, p: nat)
    requires p < |ds|
    ensures var d := ds[p];
            var sel, last := Select(ds[..p], d.Key()), LastOf(ds, d);
            RecordItems(Timed(sel + [d], last))
              == (if sel == [] then multiset{} else RecordItems(Timed(sel, last))) + LineItems(ds, p)
  {
    hide Timed, MainOf, CandidatesOf, RowItems, Select;
    var d := ds[p];
    var sel, last := Select(ds[..p], d.Key()), LastOf(ds, d);
    SelectNext(ds, p, d.Key());
    var id, minute := (sel + [d])[0].id, Minute(last.stamp.timestamp);
    TimedItems(sel + [d], last);
    CandidatesSnoc(sel, d);
    LabelledSnoc(id, Candidates(sel), d.candidate);
    RowItemsSnoc(minute, Labelled(id, Candidates(sel)), Row(id, d.candidate));
    if sel == [] {
      NoRowItems(minute, id);
    } else {
      TimedItems(sel, last);
    }
  }

  lemma NoRowItems(minute: string, id: int)
    ensures RowItems(minute, Labelled(id, Candidates([]))) == multiset{}
  {
    assert Candidates([]) == [];
  }

  lemma {:induction false} BuiltItems(ds: seq<Detection>, n: nat)
    requires n <= |ds|
    ensures ItemBag(Built(ds, n)) == ItemsUpTo(ds, n)
    ensures |ItemsUpTo(ds, n)| == n + |Built(ds, n)|
  {
    hide LineItems, RecordItems, Timed, LastOf;
    if n == 0 {
      NoItems();
    } else {
      hide ItemBag;
      var d := ds[n - 1];
      var key, before := d.Key(), Built(ds, n - 1);
      var r := Timed(Select(ds[..n - 1], key) + [d], LastOf(ds, d));
      BuiltItems(ds, n - 1);
      BuiltIsTimed(ds, n - 1, key, d);
      LineJoins(ds, n - 1);
      ItemBagPut(before, key, r);
      ItemBagTake(before, key);
      MapGrows(before, key, r);
      LineSize(ds, n - 1);
    }
  }

  lemma NoItems()
    ensures ItemBag(map[]) == multiset{}
  {
    assert ItemMap(map[]) == map[];
  }

  lemma LineSize(ds: seq<Detection>, p: nat)
    requires p < |ds|
    ensures |LineItems(ds, p)| == if Select(ds[..p], ds[p].Key()) == [] then 2 else 1
  {
    hide Select, LastOf, FirstOf;
  }

  /** Grouping keeps every accepted line as exactly one candidate row, and opens exactly one record per key. */
  lemma {:induction false} RowsConserved(ds: seq<Detection>)
    ensures ItemBag(Grouped(ds)) == AcceptedItems(ds)
    ensures |AcceptedItems(ds)| == |ds| + |Grouped(ds)|
  {
    hide Built, ItemsUpTo, ItemBag;
    BuiltIsGrouped(ds);
    BuiltItems(ds, |ds|);
  }

  lemma MapGrows<K, V>(m: map<K, V>, k: K, v: V)
    ensures |m[k := v]| == |m| + if k in m then 0 else 1
  {
    assert m[k := v].Keys == m.Keys + {k};
    assert |m[k := v]| == |m[k := v].Keys| && |m| == |m.Keys|;
  }

  /** The two INSERTs of a group together insert all of it. */
  lemma {:induction false} TwoInserts(data: map<int, DecoderData>)
    ensures MainItems(data) + CandidateItems(data) == ItemBag(data)
    decreases |data|
  {
    if data == map[] {
      assert MainMap(data) == map[] && CandidateMap(data) == map[] && ItemMap(data) == map[];
    } else {
      hide MainItems, CandidateItems, ItemBag, MainOf, CandidatesOf;
      var key := Least(data.Keys);
      TwoInserts(data - {key});
      TakeRecord(data, key);
      Shuffle(multiset{MainOf(data[key])}, MainItems(data - {key}), CandidatesOf(data[key]), CandidateItems(data - {key}));
    }
  }

  lemma TakeRecord(data: map<int, DecoderData>, key: int)
    requires key in data
    ensures MainItems(data) == multiset{MainOf(data[key])} + MainItems(data - {key})
    ensures CandidateItems(data) == CandidatesOf(data[key]) + CandidateItems(data - {key})
    ensures ItemBag(data) == RecordItems(data[key]) + ItemBag(data - {key})
  {
    hide CandidatesOf, RecordItems, Total, MainMap, CandidateMap, ItemMap, MainOf;
    MainMapWithout(data, key);
    CandidateMapWithout(data, key);
    ItemMapWithout(data, key);
    TotalRemove(MainMap(data), key);
    TotalRemove(CandidateMap(data), key);
    TotalRemove(ItemMap(data), key);
  }

  lemma MainMapWithout(data: map<int, DecoderData>, key: int)
    requires key in data
    ensures key in MainMap(data) && MainMap(data)[key] == multiset{MainOf(data[key])}
    ensures MainMap(data) - {key} == MainMap(data - {key})
  {
    hide MainOf;
  }

  lemma CandidateMapWithout(data: map<int, DecoderData>, key: int)
    requires key in data
    ensures key in CandidateMap(data) && CandidateMap(data)[key] == CandidatesOf(data[key])
    ensures CandidateMap(data) - {key} == CandidateMap(data - {key})
  {
    hide CandidatesOf;
  }

  lemma ItemMapWithout(data: map<int, DecoderData>, key: int)
    requires key in data
    ensures key in ItemMap(data) && ItemMap(data)[key] == RecordItems(data[key])
    ensures ItemMap(data) - {key} == ItemMap(data - {key})
  {
    hide RecordItems;
  }

  lemma Shuffle<T>(a: multiset<T>, b: multiset<T>, c: multiset<T>, d: multiset<T>)
    ensures (a + b) + (c + d) == (a + c) + (b + d)
  {
  }

  // ---------- where items come from ----------

  lemma {:induction false} RowItemsSource(minute: string, rows: seq<Row>, x: Item) returns (i: nat)
    requires x in RowItems(minute, rows)
    ensures i < |rows| && x == CandidateItem(minute, rows[i])
  {
    i := |rows| - 1;
    if x != CandidateItem(minute, rows[i]) {
      i := RowItemsSource(minute, rows[..i], x);
    }
  }

  lemma {:induction false} LabelledId(id: int, cs: seq<Candidate>)
    ensures forall i :: 0 <= i < |Labelled(id, cs)| ==> Labelled(id, cs)[i].id == id
  {
    if cs != [] {
      LabelledId(id, cs[..|cs| - 1]);
    }
  }

  lemma RecordSource(r: DecoderData, x: Item)
    requires x in CandidatesOf(r)
    ensures x.CandidateItem? && x.minute == Minute(r.timestamp) && x.row.id == r.id
  {
    hide RowItems, Labelled;
    var i := RowItemsSource(Minute(r.timestamp), RecordRows(r), x);
    LabelledId(r.id, Values(r.candidate));
  }

  lemma MainSource(data: map<int, DecoderData>, x: Item) returns (key: int)
    requires x in MainItems(data)
    ensures key in data && x == MainOf(data[key])
  {
    hide Total, MainOf;
    key := TotalSource(MainMap(data), x);
  }

  lemma CandidateSource(data: map<int, DecoderData>, x: Item) returns (key: int)
    requires x in CandidateItems(data)
    ensures key in data && x.CandidateItem? && x.minute == Minute(data[key].timestamp) && x.row.id == data[key].id
  {
    hide Total, CandidatesOf;
    key := TotalSource(CandidateMap(data), x);
    RecordSource(data[key], x);
  }

  /** The record of every candidate row of a group is a main row of the group. */
  lemma CandidateHasMain(data: map<int, DecoderData>, x: Item) returns (y: Item)
    requires x in CandidateItems(data)
    ensures x.CandidateItem? && y in MainItems(data) && y.MainItem? && y.id == x.row.id
  {
    hide Total, CandidateItems;
    var key := CandidateSource(data, x);
    y := MainOf(data[key]);
    TotalHolds(MainMap(data), key, y);
  }

  // ---------- where detections come from ----------

  predicate FromFile(env: Environment, names: seq<string>, d: Detection)
    requires AllWellNamed(names)
  {
    1 <= d.fileNum <= |names| && FromLine(d.fileNum, StampOf(env, names[d.fileNum - 1]), d)
  }

  predicate FromLine(fileNum: int, stamp: Stamp, d: Detection) {
    && d.fileNum == fileNum && d.stamp == stamp
    && d.id == RecordId(stamp.centisecs, d.candidate.x, d.candidate.y, stamp.camID, d.tag)
    && d.candidate.tag == CandidateId(d.tag, d.cand, d.grid)
    && -0x8000 <= d.candidate.x <= 0x7fff && -0x8000 <= d.candidate.y <= 0x7fff
    && -0x8000 <= d.candidate.score <= 0x7fff && 0 <= d.candidate.bee <= 0xffff
  }

  lemma {:induction false} LineOrigin(env: Environment, fileNum: int, stamp: Stamp, line: string)
    ensures match LineDetections(env, fileNum, stamp, line)
            case None => true
            case Some(own) => |own| <= 1 && (own != [] ==> FromLine(fileNum, stamp, own[0]))
  {
    hide RecordId, CandidateId, Stoi, Tokens, BeeId, Short;
  }

  lemma {:induction false} FileOrigin(env: Environment, fileNum: int, stamp: Stamp, lines: seq<string>, i: nat)
    requires FileDetections(env, fileNum, stamp, lines).Some?
    requires i < |FileDetections(env, fileNum, stamp, lines).value|
    ensures var d := FileDetections(env, fileNum, stamp, lines).value[i];
            d.fileNum == fileNum && FromLine(fileNum, stamp, d)
  {
    hide RecordId, CandidateId;
    if lines != [] {
      var before := FileDetections(env, fileNum, stamp, lines[..|lines| - 1]).value;
      LineOrigin(env, fileNum, stamp, lines[|lines| - 1]);
      if i < |before| {
        FileOrigin(env, fileNum, stamp, lines[..|lines| - 1], i);
      }
    }
  }

  lemma FromFileExtend(env: Environment, names: seq<string>, d: Detection)
    requires names != [] && AllWellNamed(names) && FromFile(env, names[..|names| - 1], d)
    ensures FromFile(env, names, d)
  {
    hide FromLine, StampOf, WellNamed;
    assert names[..|names| - 1][d.fileNum - 1] == names[d.fileNum - 1];
  }

  lemma {:induction false} BatchOrigin(env: Environment, names: seq<string>, csv: map<string, seq<string>>, i: nat)
    requires AllWellNamed(names) && BatchDetections(env, names, csv).Some?
    requires i < |BatchDetections(env, names, csv).value|
    ensures FromFile(env, names, BatchDetections(env, names, csv).value[i])
  {
    hide FromLine, StampOf, WellNamed, FileDetections;
    if names != [] {
      var last := |names| - 1;
      var stamp, lines := StampOf(env, names[last]), LinesOf(csv, names[last]);
      var before := BatchDetections(env, names[..last], csv).value;
      var own := FileDetections(env, |names|, stamp, lines).value;
      assert BatchDetections(env, names, csv) == Some(before + own);
      if i < |before| {
        BatchOrigin(env, names[..last], csv, i);
        FromFileExtend(env, names, before[i]);
      } else {
        FileOrigin(env, |names|, stamp, lines, i - |before|);
        assert (before + own)[i] == own[i - |before|];
      }
    }
  }

  // ---------- primary keys ----------

  /** The primary keys of the two tables. */
  datatype Key = MainKey(id: int) | CandidateKey(id: int, tag: int)

  function IdOf(x: Item): int {
    match x
    case MainItem(id, _, _, _, _, _) => id
    case CandidateItem(_, row) => row.id
  }

  function KeyOf(x: Item): Key {
    match x
    case MainItem(id, _, _, _, _, _) => MainKey(id)
    case CandidateItem(_, row) => CandidateKey(row.id, row.candidate.tag)
  }

  /** No two of the items carry the same primary key. */
  ghost predicate KeysUnique(bag: multiset<Item>) {
    && (forall x :: bag[x] <= 1)
    && (forall x, y :: x in bag && y in bag && KeyOf(x) == KeyOf(y) ==> x == y)
  }
}
