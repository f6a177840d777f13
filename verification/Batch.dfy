/** One batch of csv files turned into groups of records, ready to be written (main.cpp, `csv2sql`). */
module Batch {
  import opened Wrappers
  import opened Ordered
  import opened Decoder
  import opened Rows
  import opened Minutes
  import opened Sql
  import opened SqlReader
  import opened Keys
  import opened Packing
  import opened Decimal

  /** The groups of a batch by minute; None when the conversion throws. */
  ghost function Convert(env: Environment, names: seq<string>, csv: map<string, seq<string>>): Option<map<string, Records>>
    requires AllWellNamed(names)
  {
    match BatchDetections(env, names, csv)
    case None => None
    case Some(ds) => Some(Groups(Grouped(ds)))
  }

  method ConvertFiles(env: Environment, names: seq<string>, csv: map<string, seq<string>>)
    returns (r: Option<map<string, Records>>)
    requires AllWellNamed(names)
    ensures r == Convert(env, names, csv)
  {
    var data := FileContentToDecoderData(env, names, csv);
    if data.None? {
      return None;
    }
    var groups := SplitOnMinute(data.value);
    return Some(groups);
  }

  /** What the accepted lines of a batch deserve. */
  ghost function BatchItems(env: Environment, names: seq<string>, csv: map<string, seq<string>>): multiset<Item>
    requires AllWellNamed(names)
  {
    match BatchDetections(env, names, csv)
    case None => multiset{}
    case Some(ds) => AcceptedItems(ds)
  }

  /** From lines to groups, every accepted line is exactly one candidate row, and every key one record. */
  lemma ConvertKeepsRows(env: Environment, names: seq<string>, csv: map<string, seq<string>>)
    requires AllWellNamed(names) && Convert(env, names, csv).Some?
    ensures GroupItems(Convert(env, names, csv).value) == BatchItems(env, names, csv)
  {
    var ds := BatchDetections(env, names, csv).value;
    RowsConserved(ds);
    SplitKeepsRows(Grouped(ds));
  }

  predicate AllTimestamps(data: Records) {
    forall key :: key in data ==> IsTimestamp(data[key].timestamp)
  }

  /** What the printers rely on: a group is not empty, belongs to one minute, and can be printed. */
  ghost predicate GroupOk(t: string, data: Records) {
    && data != map[]
    && AllTimestamps(data)
    && (forall key :: key in data ==> Minute(data[key].timestamp) == t && data[key].candidate != map[])
  }

  lemma {:induction false} RecordsOfBatch(env: Environment, names: seq<string>, csv: map<string, seq<string>>, key: int)
    requires AllWellNamed(names) && BatchDetections(env, names, csv).Some?
    requires key in Grouped(BatchDetections(env, names, csv).value)
    ensures var r := Grouped(BatchDetections(env, names, csv).value)[key];
            IsTimestamp(r.timestamp) && r.candidate != map[]
  {
    hide RecordId, CandidateId, FromLine, BatchDetections;
    var ds := BatchDetections(env, names, csv).value;
    GroupedIsGroupBy(ds, key);
    var sel := Select(ds, key);
    var p := SelectOrigin(ds, key, |sel| - 1);
    BatchOrigin(env, names, csv, p);
    StampTimestamp(env, names, ds[p]);
    NumberedAt(Candidates(sel));
    assert 0 in Numbered(Candidates(sel));
  }

  lemma StampTimestamp(env: Environment, names: seq<string>, d: Detection)
    requires AllWellNamed(names) && FromFile(env, names, d)
    ensures IsTimestamp(d.stamp.timestamp)
  {
    hide RecordId, CandidateId, Stoi;
  }

  /** Every group a conversion yields is fit for printing and named after its minute. */
  lemma ConvertGroupsOk(env: Environment, names: seq<string>, csv: map<string, seq<string>>, t: string)
    requires AllWellNamed(names) && Convert(env, names, csv).Some? && t in Convert(env, names, csv).value
    ensures GroupOk(t, Convert(env, names, csv).value[t]) && t != [] && t[0] == 't'
  {
    hide BatchDetections, Grouped, Groups, IsTimestamp;
    var data := Grouped(BatchDetections(env, names, csv).value);
    GroupsAreSplit(data);
    var group := Groups(data)[t];
    forall key | key in group
      ensures IsTimestamp(group[key].timestamp) && Minute(group[key].timestamp) == t && group[key].candidate != map[]
    {
      assert key in data && group[key] == data[key];
      RecordsOfBatch(env, names, csv, key);
    }
    var any := Member(group.Keys);
    assert any in group;
  }

  /** So the candidate INSERT of a group has at least one row, and the dropped character is a comma. */
  lemma {:induction false} GroupHasRows(t: string, data: Records)
    requires GroupOk(t, data)
    ensures CandidateRows(data) != [] && CandidateRowTexts(data) != [] && MainTexts(data) != []
  {
    var key := Least(data.Keys);
    var cs := Values(data[key].candidate);
    assert data[key].candidate != map[];
    LabelledAt(data[key].id, cs);
  }
}
