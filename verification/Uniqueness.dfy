/** Primary keys over a whole run: when the csv files are clean, no key is ever converted twice. */
module Uniqueness {
  import opened Ordered
  import opened Packing
  import opened Decoder
  import opened Rows
  import opened Keys
  import opened Minutes
  import opened Batch
  import opened Columns
  import opened Invariant

  lemma UniqueUnion(a: multiset<Item>, b: multiset<Item>)
    requires KeysUnique(a) && KeysUnique(b)
    requires forall x, y :: x in a && y in b ==> KeyOf(x) != KeyOf(y)
    ensures KeysUnique(a + b)
  {
    forall x
      ensures (a + b)[x] <= 1
    {
      assert x in a && x in b ==> KeyOf(x) != KeyOf(x);
    }
  }

  lemma UniquePart(a: multiset<Item>, b: multiset<Item>)
    requires a <= b && KeysUnique(b)
    ensures KeysUnique(a)
  {
    forall x
      ensures a[x] <= b[x]
    {
    }
  }

  // ---------- one record ----------

  predicate TagsDistinct(cs: seq<Candidate>) {
    forall i, j :: 0 <= i < j < |cs| ==> cs[i].tag != cs[j].tag
  }

  lemma {:induction false} LabelledUnique(minute: string, id: int, cs: seq<Candidate>)
    requires TagsDistinct(cs)
    ensures KeysUnique(RowItems(minute, Labelled(id, cs)))
    ensures forall x :: x in RowItems(minute, Labelled(id, cs)) ==> IsRowOf(x, id, cs)
  {
    hide KeysUnique, IsRowOf;
    if cs == [] {
      NothingUnique();
    } else {
      var init, last := cs[..|cs| - 1], cs[|cs| - 1];
      LabelledUnique(minute, id, init);
      RowItemsSnoc(minute, Labelled(id, init), Row(id, last));
      var before, added := RowItems(minute, Labelled(id, init)), multiset{CandidateItem(minute, Row(id, last))};
      forall x, y | x in before && y in added
        ensures KeyOf(x) != KeyOf(y)
      {
        RowsApart(x, y, id, cs);
      }
      OneUnique(CandidateItem(minute, Row(id, last)));
      UniqueUnion(before, added);
      forall x | x in before + added
        ensures IsRowOf(x, id, cs)
      {
        RowStays(x, minute, id, cs);
      }
    }
  }

  /** `x` is the row of one of the candidates. */
  predicate IsRowOf(x: Item, id: int, cs: seq<Candidate>) {
    x.CandidateItem? && x.row.id == id && exists i :: 0 <= i < |cs| && cs[i] == x.row.candidate
  }

  lemma RowsApart(x: Item, y: Item, id: int, cs: seq<Candidate>)
    requires TagsDistinct(cs) && cs != [] && IsRowOf(x, id, cs[..|cs| - 1])
    requires y.CandidateItem? && y.row.candidate == cs[|cs| - 1]
    ensures KeyOf(x) != KeyOf(y)
  {
    var init := cs[..|cs| - 1];
    var i :| 0 <= i < |init| && init[i] == x.row.candidate;
    assert cs[i].tag != cs[|cs| - 1].tag;
  }

  lemma RowStays(x: Item, minute: string, id: int, cs: seq<Candidate>)
    requires cs != []
    requires IsRowOf(x, id, cs[..|cs| - 1]) || x == CandidateItem(minute, Row(id, cs[|cs| - 1]))
    ensures IsRowOf(x, id, cs)
  {
    var init := cs[..|cs| - 1];
    if IsRowOf(x, id, init) {
      var i :| 0 <= i < |init| && init[i] == x.row.candidate;
      assert cs[i] == x.row.candidate;
    } else {
      assert cs[|cs| - 1] == x.row.candidate;
    }
  }

  lemma OneUnique(x: Item)
    ensures KeysUnique(multiset{x})
  {
  }

  lemma RecordUnique(r: DecoderData)
    requires TagsDistinct(Values(r.candidate))
    ensures KeysUnique(RecordItems(r))
    ensures forall x :: x in RecordItems(r) ==> IdOf(x) == r.id
  {
    hide Values, Labelled, RowItems, KeysUnique;
    LabelledUnique(Minute(r.timestamp), r.id, Values(r.candidate));
    OneUnique(MainOf(r));
    UniqueUnion(multiset{MainOf(r)}, CandidatesOf(r));
  }

  // ---------- one batch ----------

  ghost predicate RecordsApart(data: Records) {
    && (forall j, k :: j in data && k in data && j != k ==> data[j].id != data[k].id)
    && (forall k :: k in data ==> TagsDistinct(Values(data[k].candidate)))
  }

  lemma {:induction false} DataUnique(data: Records)
    requires RecordsApart(data)
    ensures KeysUnique(ItemBag(data))
    ensures forall x :: x in ItemBag(data) ==> exists k :: k in data && data[k].id == IdOf(x)
    decreases |data|
  {
    hide KeysUnique, RecordItems, TagsDistinct, Values;
    if data == map[] {
      EmptyRows();
      NothingUnique();
    } else {
      var key := Least(data.Keys);
      var rest := data - {key};
      DataUnique(rest);
      RecordUnique(data[key]);
      ItemBagAdd(rest, key, data[key]);
      assert rest[key := data[key]] == data;
      forall x, y | x in ItemBag(rest) && y in RecordItems(data[key])
        ensures KeyOf(x) != KeyOf(y)
      {
        var k :| k in rest && rest[k].id == IdOf(x);
        assert data[k].id != data[key].id;
      }
      UniqueUnion(ItemBag(rest), RecordItems(data[key]));
      forall x | x in ItemBag(data)
        ensures exists k :: k in data && data[k].id == IdOf(x)
      {
        if x in ItemBag(rest) {
          var k :| k in rest && rest[k].id == IdOf(x);
          assert k in data && data[k].id == IdOf(x);
        }
      }
    }
  }

  lemma NothingUnique()
    ensures KeysUnique(multiset{})
  {
  }

  lemma CleanRecordsApart(env: Environment, names: seq<string>, csv: map<string, seq<string>>)
    requires CleanBatch(env, names, csv)
    ensures RecordsApart(Grouped(BatchDetections(env, names, csv).value))
  {
    var ds := BatchDetections(env, names, csv).value;
    var data := Grouped(ds);
    forall j, k | j in data && k in data && j != k
      ensures data[j].id != data[k].id
    {
      RecordIdsDistinct(env, names, csv, j, k);
    }
    forall k | k in data
      ensures TagsDistinct(Values(data[k].candidate))
    {
      CleanTagsDistinct(env, names, csv, k);
    }
  }

  lemma CleanTagsDistinct(env: Environment, names: seq<string>, csv: map<string, seq<string>>, k: int)
    requires CleanBatch(env, names, csv) && k in Grouped(BatchDetections(env, names, csv).value)
    ensures TagsDistinct(Values(Grouped(BatchDetections(env, names, csv).value)[k].candidate))
  {
    hide AllInRange, DistinctShots, DistinctDecodings, AllWellNamed, BatchDetections, Grouped, Select;
    var ds := BatchDetections(env, names, csv).value;
    GroupedIsGroupBy(ds, k);
    var cs := Candidates(Select(ds, k));
    NumberedValues(cs);
    NumberedAt(cs);
    forall i, j | 0 <= i < j < |cs|
      ensures cs[i].tag != cs[j].tag
    {
      CandidateIdsDistinct(env, names, csv, k, i, j);
    }
  }

  lemma CleanBatchUnique(env: Environment, names: seq<string>, csv: map<string, seq<string>>)
    requires CleanBatch(env, names, csv)
    ensures KeysUnique(BatchItems(env, names, csv))
  {
    hide KeysUnique, RecordsApart, Grouped, AcceptedItems, ItemBag;
    CleanRecordsApart(env, names, csv);
    DataUnique(Grouped(BatchDetections(env, names, csv).value));
    RowsConserved(BatchDetections(env, names, csv).value);
  }

  // ---------- where ids come from ----------

  /** The camera and the moment an id carries. */
  function ShotOf(id: int): (int, int) {
    (id / 0x100 % 4, id / 0x4_0000_0000)
  }

  lemma ItemOrigin(ds: seq<Detection>, x: Item) returns (p: nat)
    requires x in AcceptedItems(ds)
    ensures p < |ds| && ds[p].id == IdOf(x)
  {
    hide Select;
    p := ItemsSource(ds, |ds|, x);
    var sel := Select(ds, ds[p].Key());
    if IdOf(x) != ds[p].id {
      p := SelectOrigin(ds, ds[p].Key(), 0);
    }
  }

  lemma ItemShot(env: Environment, names: seq<string>, csv: map<string, seq<string>>, x: Item) returns (i: nat)
    requires CleanBatch(env, names, csv) && x in BatchItems(env, names, csv)
    ensures i < |names| && StampOf(env, names[i]).Shot() == ShotOf(IdOf(x))
  {
    hide AcceptedItems, BatchDetections, StampOf, RecordId, CandidateId;
    var ds := BatchDetections(env, names, csv).value;
    var p := ItemOrigin(ds, x);
    BatchOrigin(env, names, csv, p);
    var d := ds[p];
    RecordIdDecodes(d.stamp.centisecs, d.candidate.x, d.candidate.y, d.stamp.camID, d.tag);
    i := d.fileNum - 1;
  }

  // ---------- all batches ----------

  /** All converted files: every batch clean, and no two files anywhere taken in the same shot. */
  ghost predicate CleanRun(env: Environment, arrived: map<string, seq<string>>, batches: seq<seq<string>>) {
    && (forall b :: 0 <= b < |batches| ==> CleanBatch(env, batches[b], arrived))
    && AllWellNamed(Flatten(batches))
    && DistinctShots(env, Flatten(batches))
  }

  lemma CleanInit(env: Environment, arrived: map<string, seq<string>>, batches: seq<seq<string>>)
    requires CleanRun(env, arrived, batches) && batches != []
    ensures var init, last := batches[..|batches| - 1], batches[|batches| - 1];
            && CleanRun(env, arrived, init) && CleanBatch(env, last, arrived)
            && Flatten(batches) == Flatten(init) + last
  {
    hide CleanBatch, StampOf, WellNamed;
    var init, last := batches[..|batches| - 1], batches[|batches| - 1];
    assert batches == init + [last];
    FlattenSnoc(init, last);
    var all, front := Flatten(batches), Flatten(init);
    assert forall i :: 0 <= i < |front| ==> front[i] == all[i];
  }

  lemma {:induction false} TotalsUnique(env: Environment, arrived: map<string, seq<string>>, batches: seq<seq<string>>)
    requires CleanRun(env, arrived, batches) && BatchesRight(env, arrived, batches)
    ensures KeysUnique(BatchTotals(env, arrived, batches))
  {
    hide KeysUnique, CleanBatch, BatchItems, CleanRun, StampOf;
    if batches == [] {
      NothingUnique();
    } else {
      var init, last := batches[..|batches| - 1], batches[|batches| - 1];
      CleanInit(env, arrived, batches);
      InitRight(env, arrived, batches);
      TotalsUnique(env, arrived, init);
      CleanBatchUnique(env, last, arrived);
      forall x, y | x in BatchTotals(env, arrived, init) && y in BatchItems(env, last, arrived)
        ensures KeyOf(x) != KeyOf(y)
      {
        var i := TotalsShot(env, arrived, init, x);
        var j := ItemShot(env, last, arrived, y);
        ShotsDiffer(env, arrived, batches, i, j);
      }
      UniqueUnion(BatchTotals(env, arrived, init), BatchItems(env, last, arrived));
    }
  }

  lemma InitRight(env: Environment, arrived: map<string, seq<string>>, batches: seq<seq<string>>)
    requires BatchesRight(env, arrived, batches) && batches != []
    ensures BatchesRight(env, arrived, batches[..|batches| - 1])
    ensures BatchRight(env, arrived, batches[|batches| - 1])
  {
    hide BatchRight;
    var init := batches[..|batches| - 1];
    forall k | 0 <= k < |init|
      ensures BatchRight(env, arrived, init[k])
    {
      assert BatchRight(env, arrived, batches[k]);
    }
  }

  lemma ShotsDiffer(env: Environment, arrived: map<string, seq<string>>, batches: seq<seq<string>>, i: nat, j: nat)
    requires CleanRun(env, arrived, batches) && batches != []
    requires var front, last := Flatten(batches[..|batches| - 1]), batches[|batches| - 1];
             i < |front| && j < |last| && WellNamed(front[i]) && WellNamed(last[j])
    ensures var front, last := Flatten(batches[..|batches| - 1]), batches[|batches| - 1];
            StampOf(env, front[i]).Shot() != StampOf(env, last[j]).Shot()
  {
    hide CleanBatch, StampOf, WellNamed;
    CleanInit(env, arrived, batches);
    var front, last, all := Flatten(batches[..|batches| - 1]), batches[|batches| - 1], Flatten(batches);
    assert all[i] == front[i] && all[|front| + j] == last[j];
  }

  /** An item of some batch is an item of the last or of an earlier one. */
  lemma TotalsParts(env: Environment, arrived: map<string, seq<string>>, batches: seq<seq<string>>, x: Item)
    requires BatchesRight(env, arrived, batches) && x in BatchTotals(env, arrived, batches)
    ensures batches != []
    ensures var init, last := batches[..|batches| - 1], batches[|batches| - 1];
            && BatchesRight(env, arrived, init) && BatchRight(env, arrived, last)
            && (x in BatchTotals(env, arrived, init) || x in BatchItems(env, last, arrived))
  {
    hide BatchItems, BatchRight, BatchesRight;
    if batches != [] {
      InitRight(env, arrived, batches);
    }
  }

  lemma {:induction false} TotalsShot(env: Environment, arrived: map<string, seq<string>>, batches: seq<seq<string>>, x: Item)
    returns (i: nat)
    requires CleanRun(env, arrived, batches) && BatchesRight(env, arrived, batches)
    requires x in BatchTotals(env, arrived, batches)
    ensures i < |Flatten(batches)| && WellNamed(Flatten(batches)[i])
    ensures StampOf(env, Flatten(batches)[i]).Shot() == ShotOf(IdOf(x))
  {
    hide CleanRun, CleanBatch, BatchItems, StampOf, WellNamed, BatchTotals, BatchesRight, Flatten;
    TotalsParts(env, arrived, batches, x);
    CleanInit(env, arrived, batches);
    var init, last := batches[..|batches| - 1], batches[|batches| - 1];
    if x in BatchTotals(env, arrived, init) {
      i := TotalsShot(env, arrived, init, x);
    } else {
      var j := ItemShot(env, last, arrived, x);
      i := |Flatten(init)| + j;
    }
  }
}
