/** What the text of the statements of a batch inserts: exactly what its accepted lines deserve. */
module PrintedRows {
  import opened Wrappers
  import opened Bags
  import opened Ordered
  import opened Sequences
  import opened Decoder
  import opened Rows
  import opened Minutes
  import opened Sql
  import opened SqlReader
  import opened Batch

  // ---------- rows as items ----------

  /** The row of the main table that a printed row stands for. */
  function ItemOfRow(row: MainRow): Item {
    var t := row.time;
    var known := 0 <= t.year && 0 <= t.month && 0 <= t.day && 0 <= t.hour && 0 <= t.min && 0 <= t.sec;
    MainItem(row.id, if known then TimestampOf(t) else [], row.offset, row.x, row.y, row.camID)
  }

  function ItemsOfRows(rows: seq<MainRow>): multiset<Item> {
    if rows == [] then multiset{} else multiset{ItemOfRow(rows[0])} + ItemsOfRows(rows[1..])
  }

  lemma ItemOfRecord(r: DecoderData)
    requires IsTimestamp(r.timestamp)
    ensures ItemOfRow(MainRowOf(r)) == MainOf(r)
  {
    hide TimeOf, TimestampOf;
    TimestampRecovered(r.timestamp);
  }

  lemma {:induction false} MainRowsAreItems(data: Records)
    requires AllTimestamps(data) && AllPrintable(data)
    ensures ItemsOfRows(MainRows(data)) == MainItems(data)
    decreases |data|
  {
    if data == map[] {
      assert MainMap(data) == map[];
    } else {
      hide ItemOfRow, MainRowOf, MainItems, MainOf, IsTimestamp;
      var key := Least(data.Keys);
      var rest := data - {key};
      MainRowsAreItems(rest);
      ItemOfRecord(data[key]);
      TakeRecord(data, key);
      assert MainRows(data)[1..] == MainRows(rest);
    }
  }

  lemma {:induction false} RowItemsConcat(t: string, a: seq<Row>, b: seq<Row>)
    ensures RowItems(t, a + b) == RowItems(t, a) + RowItems(t, b)
  {
    if b == [] {
      RightUnit(a);
    } else {
      hide RowItems;
      var init, last := b[..|b| - 1], b[|b| - 1];
      RowItemsConcat(t, a, init);
      Prefix(b, |b| - 1);
      Whole(b);
      Associative(a, init, [last]);
      RowItemsSnoc(t, a + init, last);
      RowItemsSnoc(t, init, last);
    }
  }

  predicate OneMinute(t: string, data: Records) {
    forall key :: key in data ==> Minute(data[key].timestamp) == t
  }

  lemma {:induction false} CandidateRowsAreItems(t: string, data: Records)
    requires OneMinute(t, data)
    ensures RowItems(t, CandidateRows(data)) == CandidateItems(data)
    decreases |data|
  {
    if data == map[] {
      assert CandidateMap(data) == map[];
    } else {
      hide CandidateItems, RecordRows, Minute, RowItems;
      var key := Least(data.Keys);
      var rest := data - {key};
      CandidateRowsAreItems(t, rest);
      TakeRecord(data, key);
      RowItemsConcat(t, RecordRows(data[key]), CandidateRows(rest));
    }
  }

  // ---------- from the text ----------

  /** What a reader needs to take the text apart: no quote in an offset, and rotations printed as numbers. */
  ghost predicate Readable(data: Records) {
    AllPrintable(data) && AllCandidatesPrintable(data)
  }

  /** The names of tables the reader can tell from the text around them. */
  predicate PlainName(table: string) {
    ' ' !in table && '(' !in table
  }

  ghost function MainText(table: string, data: Records): string
    requires AllLong(data)
  {
    StatementText(MainHeader(table), MainTexts(data))
  }

  ghost function CandidatesText(table: string, data: Records): string {
    StatementText(CandidateHeader(table), CandidateRowTexts(data))
  }

  /** The items a reader finds in the two INSERTs of group `t`; None when it cannot read them. */
  ghost function ReadGroup(t: string, main: string, candidates: string): Option<multiset<Item>> {
    var (_, rows) :- ReadInsertMain(main);
    var (_, candidateRows) :- ReadInsertCandidates(candidates);
    Some(ItemsOfRows(rows) + RowItems(t, candidateRows))
  }

  lemma GroupParts(t: string, data: Records)
    requires GroupOk(t, data)
    ensures data != map[] && AllTimestamps(data) && AllLong(data) && OneMinute(t, data)
  {
  }

  /** The text of the two INSERTs of a group names its table and holds its items, each once. */
  lemma GroupReadBack(t: string, table: string, data: Records)
    requires GroupOk(t, data) && Readable(data) && PlainName(table)
    ensures AllLong(data)
    ensures ReadInsertMain(MainText(table, data)).Some? && ReadInsertMain(MainText(table, data)).value.0 == table
    ensures ReadInsertCandidates(CandidatesText(table, data)).Some?
         && ReadInsertCandidates(CandidatesText(table, data)).value.0 == table
    ensures ReadGroup(t, MainText(table, data), CandidatesText(table, data)) == Some(ItemBag(data))
  {
    GroupParts(t, data);
    GroupHasRows(t, data);
    hide GroupOk, AllTimestamps, AllLong, AllPrintable, AllCandidatesPrintable, OneMinute, ReadInsertMain,
      ReadInsertCandidates, MainRows, CandidateRows, StatementText, ItemBag, MainItems, CandidateItems, ItemsOfRows,
      RowItems;
    InsertMainReadBack(table, data);
    InsertCandidatesReadBack(table, data);
    MainRowsAreItems(data);
    CandidateRowsAreItems(t, data);
    TwoInserts(data);
  }

  // ---------- all groups of a batch ----------

  ghost predicate GroupsReadable(groups: map<string, Records>, tables: string -> string) {
    forall t :: t in groups ==> Readable(groups[t]) && PlainName(tables(t))
  }

  /** What a reader finds in the text of all groups; `tables` names the table of each. */
  ghost function ReadGroups(groups: map<string, Records>, tables: string -> string): map<string, multiset<Item>>
    requires forall t :: t in groups ==> AllLong(groups[t])
  {
    map t | t in groups ::
      var found := ReadGroup(t, MainText(tables(t), groups[t]), CandidatesText(tables(t), groups[t]));
      if found.Some? then found.value else multiset{}
  }

  /** The rows in the text of all the INSERTs of a batch are the rows its accepted lines deserve. */
  lemma BatchReadBack(env: Environment, names: seq<string>, csv: map<string, seq<string>>, tables: string -> string)
    requires AllWellNamed(names) && Convert(env, names, csv).Some?
    requires GroupsReadable(Convert(env, names, csv).value, tables)
    ensures var groups := Convert(env, names, csv).value;
            && (forall t :: t in groups ==> AllLong(groups[t]))
            && Total(ReadGroups(groups, tables)) == BatchItems(env, names, csv)
  {
    hide Convert, BatchItems, Readable, PlainName, ReadGroup, ItemBag, GroupOk, AllLong, Total, MainText, CandidatesText;
    var groups := Convert(env, names, csv).value;
    forall t | t in groups
      ensures AllLong(groups[t])
      ensures ReadGroup(t, MainText(tables(t), groups[t]), CandidatesText(tables(t), groups[t])) == Some(ItemBag(groups[t]))
    {
      ConvertGroupsOk(env, names, csv, t);
      GroupReadBack(t, tables(t), groups[t]);
    }
    SameMap(ReadGroups(groups, tables), GroupBags(groups));
    ConvertKeepsRows(env, names, csv);
  }
}
