/** The SQL text of a batch: the statement builders of DBAccess.cpp. */
module Sql {
  import opened Wrappers
  import opened Decimal
  import opened Delimited
  import opened Ordered
  import opened Sequences
  import opened Replace
  import opened Decoder
  import opened Minutes

  // ---------- appending ----------

  /** The pieces from the `k`-th on, in front of `rest`. */
  function Onto(pieces: seq<string>, k: nat, rest: string): string
    requires k <= |pieces|
    decreases |pieces| - k
  {
    if k == |pieces| then rest else pieces[k] + Onto(pieces, k + 1, rest)
  }

  function Text(pieces: seq<string>): string {
    Onto(pieces, 0, "")
  }

  /** A run of `append` calls. */
  method AppendAll(start: string, pieces: seq<string>) returns (s: string)
    ensures s == start + Text(pieces)
  {
    s := start;
    for k := 0 to |pieces|
      invariant s + Onto(pieces, k, "") == start + Text(pieces)
    {
      Associative(s, pieces[k], Onto(pieces, k + 1, ""));
      s := s + pieces[k];
    }
    RightUnit(s);
  }

  lemma {:induction false} TextOnto(pieces: seq<string>, k: nat, rest: string)
    requires k <= |pieces|
    ensures Onto(pieces, k, "") + rest == Onto(pieces, k, rest)
    decreases |pieces| - k
  {
    if k < |pieces| {
      TextOnto(pieces, k + 1, rest);
      Associative(pieces[k], Onto(pieces, k + 1, ""), rest);
    }
  }

  // ---------- timestamps ----------

  datatype Time = Time(year: int, month: int, day: int, hour: int, min: int, sec: int)

  /** `substr`, where it does not throw. */
  function Sub(s: string, from: nat, len: nat): string
    requires from <= |s|
  {
    s[from..if from + len <= |s| then from + len else |s|]
  }

  /** `substr(12, 2)` does not throw. */
  predicate LongEnough(ts: string) {
    |ts| >= 12
  }

  function TimeOf(ts: string): Time
    requires LongEnough(ts)
  {
    Time(Atoi(Sub(ts, 0, 4)), Atoi(Sub(ts, 4, 2)), Atoi(Sub(ts, 6, 2)), Atoi(Sub(ts, 8, 2)), Atoi(Sub(ts, 10, 2)),
         Atoi(Sub(ts, 12, 2)))
  }

  /** The record is filled field by field; a timestamp that is too short throws. */
  method GetTimeFromTimeStamp(ts: string) returns (r: Option<Time>)
    ensures r == if LongEnough(ts) then Some(TimeOf(ts)) else None
  {
    hide Atoi;
    if |ts| < 12 {
      return None;
    }
    var t := Time(0, 0, 0, 0, 0, 0);
    t := t.(year := Atoi(Sub(ts, 0, 4)));
    t := t.(month := Atoi(Sub(ts, 4, 2)));
    t := t.(day := Atoi(Sub(ts, 6, 2)));
    t := t.(hour := Atoi(Sub(ts, 8, 2)));
    t := t.(min := Atoi(Sub(ts, 10, 2)));
    t := t.(sec := Atoi(Sub(ts, 12, 2)));
    r := Some(t);
  }

  /** Fourteen digits: year, month, day, hour, minute, second. */
  predicate IsTimestamp(s: string) {
    |s| == 14 && AllDigits(s)
  }

  function TimestampOf(t: Time): string
    requires 0 <= t.year && 0 <= t.month && 0 <= t.day && 0 <= t.hour && 0 <= t.min && 0 <= t.sec
  {
    Padded(t.year, 4) + Padded(t.month, 2) + Padded(t.day, 2) + Padded(t.hour, 2) + Padded(t.min, 2) + Padded(t.sec, 2)
  }

  lemma FieldAtoi(s: string)
    requires 0 < |s| <= 4 && AllDigits(s)
    ensures Atoi(s) == Value(s) && Padded(Atoi(s), |s|) == s
  {
    ValueBound(s);
    StoiOfDigits(s);
    PaddedValue(s);
  }

  lemma DigitField(ts: string, from: nat, len: nat)
    requires IsTimestamp(ts) && 0 < len <= 4 && from + len <= 14
    ensures Atoi(Sub(ts, from, len)) >= 0 && Padded(Atoi(Sub(ts, from, len)), len) == ts[from..from + len]
  {
    var field := ts[from..from + len];
    assert forall c :: c in field ==> c in ts;
    hide Atoi, Padded;
    FieldAtoi(field);
  }

  /** The six numbers of fourteen digits determine them, although they are printed without leading zeros. */
  lemma TimestampRecovered(ts: string)
    requires IsTimestamp(ts)
    ensures var t := TimeOf(ts);
            && 0 <= t.year && 0 <= t.month && 0 <= t.day && 0 <= t.hour && 0 <= t.min && 0 <= t.sec
            && TimestampOf(t) == ts
  {
    hide Atoi, Padded, Sub;
    DigitField(ts, 0, 4);
    DigitField(ts, 4, 2);
    DigitField(ts, 6, 2);
    DigitField(ts, 8, 2);
    DigitField(ts, 10, 2);
    DigitField(ts, 12, 2);
    Reassembled(ts);
  }

  lemma Reassembled(ts: string)
    requires |ts| == 14
    ensures ts[0..4] + ts[4..6] + ts[6..8] + ts[8..10] + ts[10..12] + ts[12..14] == ts
  {
    assert ts[0..4] + ts[4..6] == ts[0..6];
    assert ts[0..6] + ts[6..8] == ts[0..8];
    assert ts[0..8] + ts[8..10] == ts[0..10];
    assert ts[0..10] + ts[10..12] == ts[0..12];
    assert ts[0..12] + ts[12..14] == ts;
  }

  function StampPieces(t: Time, offset: string): seq<string> {
    ["TIMESTAMP '",
     IntText(t.year), "-", IntText(t.month), "-", IntText(t.day), " ",
     IntText(t.hour), ":", IntText(t.min), ":", IntText(t.sec), ".", offset, "'"]
  }

  method ConvertTimeStampToPostGres(timestamp: string, offset: string) returns (r: Option<string>)
    ensures r == if LongEnough(timestamp) then Some(Text(StampPieces(TimeOf(timestamp), offset))) else None
  {
    hide TimeOf, StampPieces;
    var t := GetTimeFromTimeStamp(timestamp);
    if t.None? {
      return None;
    }
    var s := AppendAll("", StampPieces(t.value, offset));
    assert "" + Text(StampPieces(t.value, offset)) == Text(StampPieces(t.value, offset));
    r := Some(s);
  }

  // ---------- rows ----------

  function MainPieces(r: DecoderData): seq<string>
    requires LongEnough(r.timestamp)
  {
    ["(", IntText(r.id), ", ", Text(StampPieces(TimeOf(r.timestamp), r.offset)), ", ",
     IntText(r.x) + ", " + IntText(r.y), ", ", IntText(r.camID), ", ", "0", ", ",
     "-1, FALSE, FALSE, -1", ")"]
  }

  /** `std::to_string` of a `float`. */
  function RotationText(r: Rotation): string {
    match r
    case Finite(text) => text
    case PlusInfinity => INF
    case MinusInfinity => MINUS_INF
  }

  function CandidatePieces(id: int, c: Candidate): seq<string> {
    ["(", IntText(id), ", ", IntText(c.tag), ", ", IntText(c.x), ", ", IntText(c.y), ", ", IntText(c.score), ", ",
     Quoted(RotationText(c.xRotation)), ", ", Quoted(RotationText(c.yRotation)), ", ",
     Quoted(RotationText(c.zRotation)), ", ", IntText(c.bee), ")"]
  }

  const INSERT := "INSERT INTO "
  const RECORD_COLUMNS := " (id, \"timestamp\", x,y, "
  const CAMERA_COLUMNS := "\"camID\", orientation, "
  const TRACK_COLUMNS := "\"trackID\", \"isDancing\", "
  const FOLLOW_COLUMNS := "\"isFollowing\", \"followedBeeID\")"
  const VALUES := " VALUES "
  const MAIN_COLUMNS := RECORD_COLUMNS + (CAMERA_COLUMNS + (TRACK_COLUMNS + (FOLLOW_COLUMNS + VALUES)))
  const DETECTION_COLUMNS := "(id,candidateID,x,y,score,"
  const ROTATION_COLUMNS := "xRotation,yRotation,zRotation,\"beeID\") "
  const CANDIDATE_COLUMNS := DETECTION_COLUMNS + (ROTATION_COLUMNS + VALUES)
  const TERMINATOR := "; \r\n"

  predicate AllLong(data: Records) {
    forall key :: key in data ==> LongEnough(data[key].timestamp)
  }

  /** The rows of the main table, in key order. */
  ghost function MainTexts(data: Records): seq<string>
    requires AllLong(data)
    decreases |data|
  {
    if data == map[] then []
    else
      var key := Least(data.Keys);
      [Text(MainPieces(data[key]))] + MainTexts(data - {key})
  }

  function CandidateTexts(id: int, cs: seq<Candidate>): seq<string> {
    if cs == [] then [] else [Text(CandidatePieces(id, cs[0]))] + CandidateTexts(id, cs[1..])
  }

  /** The rows of the candidate table: records in key order, candidates in key order. */
  ghost function CandidateRowTexts(data: Records): seq<string>
    decreases |data|
  {
    if data == map[] then []
    else
      var key := Least(data.Keys);
      CandidateTexts(data[key].id, Values(data[key].candidate)) + CandidateRowTexts(data - {key})
  }

  /** Header, rows each followed by a comma, the last character dropped, terminator. */
  function StatementText(header: string, rows: seq<string>): string
    requires header != []
  {
    var s := header + Lines(rows, ',');
    s[..|s| - 1] + TERMINATOR
  }

  /** With at least one row it is the comma that is dropped. */
  lemma StatementRows(header: string, rows: seq<string>)
    requires header != [] && rows != []
    ensures StatementText(header, rows) == header + Join(rows, ',') + TERMINATOR
  {
    JoinIsLines(rows, ',');
    var j := Join(rows, ',');
    assert header + (j + [',']) == header + j + [','];
    assert (header + j + [','])[..|header + j|] == header + j;
  }

  // ---------- the builders ----------

  function MainHeader(table: string): string {
    INSERT + table + MAIN_COLUMNS
  }

  function CandidateHeader(table: string): string {
    INSERT + table + "b" + CANDIDATE_COLUMNS
  }

  lemma {:induction false} LinesAppend(a: seq<string>, b: seq<string>, d: char)
    ensures Lines(a + b, d) == Lines(a, d) + Lines(b, d)
  {
    if a == [] {
      assert a + b == b;
    } else {
      LinesAppend(a[1..], b, d);
      assert (a + b)[1..] == a[1..] + b;
      Associative(a[0] + [d], Lines(a[1..], d), Lines(b, d));
    }
  }

  /** Records are printed in key order; one with a timestamp that is too short throws. */
  method BuildInsertIntoSQL(tableName: string, data: Records) returns (r: Option<string>)
    ensures r.Some? <==> AllLong(data)
    ensures AllLong(data) ==> r == Some(StatementText(MainHeader(tableName), MainTexts(data)))
  {
    hide IntText, TimeOf, StampPieces, LongEnough, Text;
    var sql := MainHeader(tableName);
    var left := data;
    while left != map[]
      invariant AllLong(left) <==> AllLong(data)
      invariant MainHeader(tableName) <= sql
      invariant AllLong(data) ==>
                  sql + Lines(MainTexts(left), ',') == MainHeader(tableName) + Lines(MainTexts(data), ',')
      decreases |left|
    {
      var key := Begin(left);
      var entry := left[key];
      var stamp := ConvertTimeStampToPostGres(entry.timestamp, entry.offset);
      if stamp.None? {
        return None;
      }
      var point := IntText(entry.x) + ", " + IntText(entry.y);
      ghost var before := sql;
      sql := AppendAll(sql, ["(", IntText(entry.id), ", ", stamp.value, ", ", point, ", ", IntText(entry.camID), ", ",
                             "0", ", ", "-1, FALSE, FALSE, -1", ")"]);
      AllLongNext(left, key);
      if AllLong(left) {
        MainTextsNext(left, key, before);
      }
      sql := sql + ",";
      left := left - {key};
    }
    RightUnit(sql);
    sql := sql[..|sql| - 1];
    sql := sql + TERMINATOR;
    r := Some(sql);
  }

  lemma AllLongNext(left: Records, key: int)
    requires key in left && LongEnough(left[key].timestamp)
    ensures AllLong(left - {key}) <==> AllLong(left)
  {
    hide LongEnough;
    if AllLong(left - {key}) {
      forall k | k in left
        ensures LongEnough(left[k].timestamp)
      {
        assert k != key ==> k in left - {key};
      }
    }
  }

  /** One row further. */
  lemma MainTextsNext(left: Records, key: int, before: string)
    requires AllLong(left) && left != map[] && key == Least(left.Keys)
    ensures AllLong(left - {key})
    ensures before + Text(MainPieces(left[key])) + [','] + Lines(MainTexts(left - {key}), ',')
         == before + Lines(MainTexts(left), ',')
  {
    hide MainPieces, Text, LongEnough, Lines;
    var row, rows := Text(MainPieces(left[key])), MainTexts(left - {key});
    LinesAppend([row], rows, ',');
    OneLine(row, ',');
    Associative(before, row, [',']);
    Associative(before, row + [','], Lines(rows, ','));
  }

  lemma OneLine(t: string, d: char)
    ensures Lines([t], d) == t + [d]
  {
    assert Lines([t][1..], d) == [];
  }

  method BuildInsertBeesIDIntoSQL(tableName: string, data: Records) returns (sql: string)
    ensures sql == StatementText(CandidateHeader(tableName), CandidateRowTexts(data))
  {
    hide CandidateTexts, Lines, Values;
    sql := CandidateHeader(tableName);
    var left := data;
    while left != map[]
      invariant CandidateHeader(tableName) <= sql
      invariant sql + Lines(CandidateRowTexts(left), ',') == CandidateHeader(tableName) + Lines(CandidateRowTexts(data), ',')
      decreases |left|
    {
      var key := Begin(left);
      CandidateTextsNext(left, key, sql);
      sql := AppendCandidates(sql, left[key].id, left[key].candidate);
      left := left - {key};
    }
    NoLines();
    RightUnit(sql);
    sql := sql[..|sql| - 1];
    sql := sql + TERMINATOR;
  }

  lemma NoLines()
    ensures Lines([], ',') == []
  {
  }

  /** The rows of one record further. */
  lemma CandidateTextsNext(left: Records, key: int, before: string)
    requires left != map[] && key == Least(left.Keys)
    ensures before + Lines(CandidateTexts(left[key].id, Values(left[key].candidate)), ',')
            + Lines(CandidateRowTexts(left - {key}), ',') == before + Lines(CandidateRowTexts(left), ',')
  {
    hide CandidateTexts, Lines, Values;
    var own, rows := CandidateTexts(left[key].id, Values(left[key].candidate)), CandidateRowTexts(left - {key});
    LinesAppend(own, rows, ',');
    Associative(before, Lines(own, ','), Lines(rows, ','));
  }

  /** The inner loop, over the candidates of one record. */
  method AppendCandidates(start: string, id: int, candidates: map<int, Candidate>) returns (sql: string)
    ensures sql == start + Lines(CandidateTexts(id, Values(candidates)), ',')
  {
    sql := start;
    var left := candidates;
    while left != map[]
      invariant sql + Lines(CandidateTexts(id, Values(left)), ',') == start + Lines(CandidateTexts(id, Values(candidates)), ',')
      decreases |left|
    {
      var key := Begin(left);
      var c := left[key];
      var rx := QuoteInfinity(RotationText(c.xRotation));
      var ry := QuoteInfinity(RotationText(c.yRotation));
      var rz := QuoteInfinity(RotationText(c.zRotation));
      ghost var rows := CandidateTexts(id, Values(left - {key}));
      ghost var before := sql;
      sql := AppendAll(sql, ["(", IntText(id), ", ", IntText(c.tag), ", ", IntText(c.x), ", ", IntText(c.y), ", ",
                             IntText(c.score), ", ", rx, ", ", ry, ", ", rz, ", ", IntText(c.bee), ")"]);
      CandidateTextsCons(id, c, Values(left - {key}));
      LinesAppend([Text(CandidatePieces(id, c))], rows, ',');
      OneLine(Text(CandidatePieces(id, c)), ',');
      Associative(before, Text(CandidatePieces(id, c)), [',']);
      Associative(before, Text(CandidatePieces(id, c)) + [','], Lines(rows, ','));
      sql := sql + ",";
      left := left - {key};
    }
    RightUnit(sql);
  }

  lemma CandidateTextsCons(id: int, c: Candidate, cs: seq<Candidate>)
    ensures CandidateTexts(id, [c] + cs) == [Text(CandidatePieces(id, c))] + CandidateTexts(id, cs)
  {
    assert ([c] + cs)[1..] == cs;
  }
}
