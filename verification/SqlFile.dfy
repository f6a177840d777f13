/** The text of an sql file: one statement a line, so that reading lines is reading statements. */
module SqlFile {
  import opened Decimal
  import opened Delimited
  import opened Ordered
  import opened Sequences
  import opened Replace
  import opened Decoder
  import opened Minutes
  import opened Batch
  import opened Sql
  import opened Pipeline

  const NL := '\n'

  // ---------- text without line ends ----------

  lemma PartsOnOneLine(a: string, b: string)
    ensures NL !in a + b <==> NL !in a && NL !in b
  {
  }

  predicate AllOnOneLine(pieces: seq<string>) {
    forall k :: 0 <= k < |pieces| ==> NL !in pieces[k]
  }

  lemma {:induction false} OntoOnOneLine(pieces: seq<string>, k: nat)
    requires k <= |pieces| && AllOnOneLine(pieces)
    ensures NL !in Onto(pieces, k, "")
    decreases |pieces| - k
  {
    if k < |pieces| {
      OntoOnOneLine(pieces, k + 1);
      PartsOnOneLine(pieces[k], Onto(pieces, k + 1, ""));
    }
  }

  lemma {:induction false} JoinOnOneLine(rows: seq<string>)
    requires AllOnOneLine(rows)
    ensures NL !in Join(rows, ',')
  {
    if |rows| > 1 {
      JoinOnOneLine(rows[1..]);
      PartsOnOneLine(rows[0] + [','], Join(rows[1..], ','));
      PartsOnOneLine(rows[0], [',']);
    }
  }

  lemma {:induction false} NatTextOnOneLine(n: nat)
    ensures NL !in NatText(n)
  {
    if n >= 10 {
      NatTextOnOneLine(n / 10);
    }
  }

  lemma IntTextOnOneLine(n: int)
    ensures NL !in IntText(n)
  {
    NatTextOnOneLine(if n < 0 then -n else n);
  }

  lemma {:induction false} SubstitutedOnOneLine(s: string, from: string, to: string)
    requires from != [] && NL !in s && NL !in to
    ensures NL !in Substituted(s, from, to)
    decreases |s|
  {
    if s != [] {
      if OccursAt(s, from, 0) {
        SubstitutedOnOneLine(s[|from|..], from, to);
        PartsOnOneLine(to, Substituted(s[|from|..], from, to));
      } else {
        SubstitutedOnOneLine(s[1..], from, to);
        PartsOnOneLine([s[0]], Substituted(s[1..], from, to));
      }
    }
  }

  lemma QuotedOnOneLine(s: string)
    requires NL !in s
    ensures NL !in Quoted(s)
  {
    SubstitutedOnOneLine(s, MINUS_INF, QUOTED_MINUS_INF);
    SubstitutedOnOneLine(Substituted(s, MINUS_INF, QUOTED_MINUS_INF), INF, QUOTED_INF);
  }

  // ---------- rows ----------

  /** The one rotation text that is not the program's own is a finite number's. */
  predicate RotationOnOneLine(r: Rotation) {
    r.Finite? ==> NL !in r.text
  }

  predicate CandidateOnOneLine(c: Candidate) {
    RotationOnOneLine(c.xRotation) && RotationOnOneLine(c.yRotation) && RotationOnOneLine(c.zRotation)
  }

  /** Neither the offset of a file name nor a printed rotation contains a line end. */
  ghost predicate RecordsOnOneLine(data: Records) {
    forall key :: key in data ==>
      NL !in data[key].offset && forall i :: i in data[key].candidate ==> CandidateOnOneLine(data[key].candidate[i])
  }

  lemma RotationLine(r: Rotation)
    requires RotationOnOneLine(r)
    ensures NL !in Quoted(RotationText(r))
  {
    hide Quoted;
    assert NL !in INF && NL !in MINUS_INF;
    QuotedOnOneLine(RotationText(r));
  }

  lemma StampLine(t: Time, offset: string)
    requires NL !in offset
    ensures NL !in Text(StampPieces(t, offset))
  {
    hide IntText;
    IntTextOnOneLine(t.year);
    IntTextOnOneLine(t.month);
    IntTextOnOneLine(t.day);
    IntTextOnOneLine(t.hour);
    IntTextOnOneLine(t.min);
    IntTextOnOneLine(t.sec);
    OntoOnOneLine(StampPieces(t, offset), 0);
  }

  lemma MainLine(r: DecoderData)
    requires LongEnough(r.timestamp) && NL !in r.offset
    ensures NL !in Text(MainPieces(r))
  {
    hide IntText, StampPieces, TimeOf;
    StampLine(TimeOf(r.timestamp), r.offset);
    IntTextOnOneLine(r.id);
    IntTextOnOneLine(r.x);
    IntTextOnOneLine(r.y);
    IntTextOnOneLine(r.camID);
    PartsOnOneLine(IntText(r.x) + ", ", IntText(r.y));
    PartsOnOneLine(IntText(r.x), ", ");
    OntoOnOneLine(MainPieces(r), 0);
  }

  lemma CandidateLine(id: int, c: Candidate)
    requires CandidateOnOneLine(c)
    ensures NL !in Text(CandidatePieces(id, c))
  {
    hide IntText, Quoted, RotationText;
    IntTextOnOneLine(id);
    IntTextOnOneLine(c.tag);
    IntTextOnOneLine(c.x);
    IntTextOnOneLine(c.y);
    IntTextOnOneLine(c.score);
    IntTextOnOneLine(c.bee);
    RotationLine(c.xRotation);
    RotationLine(c.yRotation);
    RotationLine(c.zRotation);
    OntoOnOneLine(CandidatePieces(id, c), 0);
  }

  lemma {:induction false} MainLines(data: Records)
    requires AllLong(data) && RecordsOnOneLine(data)
    ensures AllOnOneLine(MainTexts(data))
    decreases |data|
  {
    hide MainPieces, CandidateOnOneLine, Text;
    if data != map[] {
      var key := Least(data.Keys);
      MainLine(data[key]);
      MainLines(data - {key});
    }
  }

  lemma {:induction false} CandidateLines(id: int, cs: seq<Candidate>)
    requires forall i :: 0 <= i < |cs| ==> CandidateOnOneLine(cs[i])
    ensures AllOnOneLine(CandidateTexts(id, cs))
  {
    hide CandidatePieces, CandidateOnOneLine, Text;
    if cs != [] {
      CandidateLine(id, cs[0]);
      CandidateLines(id, cs[1..]);
    }
  }

  lemma {:induction false} CandidateRowLines(data: Records)
    requires RecordsOnOneLine(data)
    ensures AllOnOneLine(CandidateRowTexts(data))
    decreases |data|
  {
    hide CandidateTexts, CandidateOnOneLine, Values;
    if data != map[] {
      var key := Least(data.Keys);
      var cs := Values(data[key].candidate);
      forall i | 0 <= i < |cs|
        ensures CandidateOnOneLine(cs[i])
      {
        var k := ValueOrigin(data[key].candidate, i);
      }
      CandidateLines(data[key].id, cs);
      CandidateRowLines(data - {key});
    }
  }

  // ---------- CREATE TABLE ----------

  const CREATE := "CREATE TABLE IF NOT EXISTS "
  const ID_FIELDS: seq<string> := ["(id bigint,", "\"timestamp\" " + "timestamp without time zone,"]
  const PLACE_FIELDS: seq<string> :=
    ["\"camID\" smallint,", "x smallint,", "y smallint,", "\"orientation\" smallint,"]
  const MAIN_FIELDS: seq<string> := ID_FIELDS + PLACE_FIELDS
  const LATER_FIELDS: seq<string> :=
    ["\"trackID\" smallint,", "\"isDancing\" boolean,", "\"isFollowing\" boolean,", "\"followedBeeID\" smallint,",
     "PRIMARY KEY (id) ", ")"]
  const CANDIDATE_FIELDS: seq<string> :=
    ["b ", "(id bigint, ", "candidateID smallint, ", "x smallint,", "y smallint,", "score smallint, "]
  const ROTATION_FIELDS: seq<string> :=
    ["xRotation real,", "yRotation real,", "zRotation real,", "\"beeID\" smallint,", "PRIMARY KEY (id, candidateID), "]
  const REFERENCES := "FOREIGN KEY (id) REFERENCES "
  const ON_CHANGE := " (id) ON UPDATE CASCADE ON DELETE CASCADE)"

  function CreateMainPieces(table: string): seq<string> {
    [CREATE, table] + MAIN_FIELDS + LATER_FIELDS
  }

  function CreateCandidatesPieces(table: string): seq<string> {
    [CREATE, table] + CANDIDATE_FIELDS + ROTATION_FIELDS + [REFERENCES, table, ON_CHANGE]
  }

  lemma IdFieldLines()
    ensures AllOnOneLine(ID_FIELDS)
  {
  }

  lemma PlaceFieldLines()
    ensures AllOnOneLine(PLACE_FIELDS)
  {
  }

  lemma MainFieldLines()
    ensures AllOnOneLine(MAIN_FIELDS)
  {
    hide ID_FIELDS, PLACE_FIELDS;
    IdFieldLines();
    PlaceFieldLines();
    AppendLines(ID_FIELDS, PLACE_FIELDS);
  }

  lemma LaterFieldLines()
    ensures AllOnOneLine(LATER_FIELDS)
  {
  }

  lemma CandidateFieldLines()
    ensures AllOnOneLine(CANDIDATE_FIELDS)
  {
  }

  lemma RotationFieldLines()
    ensures AllOnOneLine(ROTATION_FIELDS)
  {
  }

  lemma AffixLines()
    ensures NL !in CREATE && NL !in REFERENCES
  {
  }

  lemma ChangeLine()
    ensures NL !in ON_CHANGE
  {
  }

  lemma AppendLines(a: seq<string>, b: seq<string>)
    requires AllOnOneLine(a) && AllOnOneLine(b)
    ensures AllOnOneLine(a + b)
  {
  }

  lemma CreateMainLine(table: string)
    requires NL !in table
    ensures NL !in Text(CreateMainPieces(table))
  {
    hide MAIN_FIELDS, LATER_FIELDS, CREATE;
    AffixLines();
    MainFieldLines();
    LaterFieldLines();
    AppendLines([CREATE, table], MAIN_FIELDS);
    AppendLines([CREATE, table] + MAIN_FIELDS, LATER_FIELDS);
    OntoOnOneLine(CreateMainPieces(table), 0);
  }

  lemma CreateCandidatesLine(table: string)
    requires NL !in table
    ensures NL !in Text(CreateCandidatesPieces(table))
  {
    hide CANDIDATE_FIELDS, ROTATION_FIELDS, CREATE, REFERENCES, ON_CHANGE;
    AffixLines();
    ChangeLine();
    CandidateFieldLines();
    RotationFieldLines();
    AppendLines([CREATE, table], CANDIDATE_FIELDS);
    AppendLines([CREATE, table] + CANDIDATE_FIELDS, ROTATION_FIELDS);
    AppendLines([CREATE, table] + CANDIDATE_FIELDS + ROTATION_FIELDS, [REFERENCES, table, ON_CHANGE]);
    OntoOnOneLine(CreateCandidatesPieces(table), 0);
  }

  method CreateDecoderDataTableQuery(tableName: string) returns (sql: string)
    ensures sql == StmtText(CreateMain(tableName)) + StmtText(CreateCandidates(tableName))
  {
    hide CreateMainPieces, CreateCandidatesPieces, Text;
    sql := AppendAll("", CreateMainPieces(tableName));
    sql := sql + TERMINATOR;
    assert "" + Text(CreateMainPieces(tableName)) == Text(CreateMainPieces(tableName));
    ghost var first := sql;
    sql := AppendAll(sql, CreateCandidatesPieces(tableName));
    Associative(first, Text(CreateCandidatesPieces(tableName)), TERMINATOR);
    sql := sql + TERMINATOR;
  }

  // ---------- statements ----------

  ghost predicate StmtTimestamps(stmt: Stmt) {
    stmt.InsertMain? ==> AllLong(stmt.data)
  }

  /** What `fputs` writes for a statement. */
  ghost function StmtText(stmt: Stmt): string
    requires StmtTimestamps(stmt)
  {
    match stmt
    case CreateMain(t) => Text(CreateMainPieces(t)) + TERMINATOR
    case CreateCandidates(t) => Text(CreateCandidatesPieces(t)) + TERMINATOR
    case InsertMain(t, data) => StatementText(MainHeader(t), MainTexts(data))
    case InsertCandidates(t, data) => StatementText(CandidateHeader(t), CandidateRowTexts(data))
  }

  /** What a statement must be like to fit a line: it has rows, and no line end in its texts. */
  ghost predicate FitsALine(stmt: Stmt) {
    && StmtTimestamps(stmt)
    && NL !in stmt.table
    && (stmt.InsertMain? ==> MainTexts(stmt.data) != [] && RecordsOnOneLine(stmt.data))
    && (stmt.InsertCandidates? ==> CandidateRowTexts(stmt.data) != [] && RecordsOnOneLine(stmt.data))
  }

  /** The line `getline` reads: the text up to its line end. */
  ghost function StmtLine(stmt: Stmt): string
    requires FitsALine(stmt)
  {
    var text := StmtText(stmt);
    if text == [] then [] else text[..|text| - 1]
  }

  lemma RecordColumnParts()
    ensures NL !in RECORD_COLUMNS && NL !in CAMERA_COLUMNS && NL !in VALUES
  {
  }

  lemma TrackColumnParts()
    ensures NL !in TRACK_COLUMNS && NL !in FOLLOW_COLUMNS
  {
  }

  lemma CandidateColumnParts()
    ensures NL !in DETECTION_COLUMNS && NL !in ROTATION_COLUMNS
  {
  }

  lemma ColumnLines()
    ensures INSERT != [] && NL !in INSERT && NL !in MAIN_COLUMNS && NL !in CANDIDATE_COLUMNS
  {
    hide RECORD_COLUMNS, CAMERA_COLUMNS, TRACK_COLUMNS, FOLLOW_COLUMNS, VALUES, DETECTION_COLUMNS, ROTATION_COLUMNS;
    RecordColumnParts();
    TrackColumnParts();
    CandidateColumnParts();
    PartsOnOneLine(FOLLOW_COLUMNS, VALUES);
    PartsOnOneLine(TRACK_COLUMNS, FOLLOW_COLUMNS + VALUES);
    PartsOnOneLine(CAMERA_COLUMNS, TRACK_COLUMNS + (FOLLOW_COLUMNS + VALUES));
    PartsOnOneLine(RECORD_COLUMNS, CAMERA_COLUMNS + (TRACK_COLUMNS + (FOLLOW_COLUMNS + VALUES)));
    PartsOnOneLine(ROTATION_COLUMNS, VALUES);
    PartsOnOneLine(DETECTION_COLUMNS, ROTATION_COLUMNS + VALUES);
  }

  lemma HeadersOnOneLine(table: string)
    requires NL !in table
    ensures MainHeader(table) != [] && NL !in MainHeader(table)
    ensures CandidateHeader(table) != [] && NL !in CandidateHeader(table)
  {
    hide INSERT, MAIN_COLUMNS, CANDIDATE_COLUMNS;
    ColumnLines();
    PartsOnOneLine(INSERT, table);
    PartsOnOneLine(INSERT + table, MAIN_COLUMNS);
    PartsOnOneLine(INSERT + table, "b");
    PartsOnOneLine(INSERT + table + "b", CANDIDATE_COLUMNS);
  }

  /** A text in front of the terminator makes one line. */
  lemma TerminatedLine(body: string)
    requires NL !in body
    ensures var text := body + TERMINATOR;
            text != [] && text == text[..|text| - 1] + [NL] && NL !in text[..|text| - 1]
  {
    var text := body + TERMINATOR;
    assert text[..|text| - 1] == body + "; \r";
    PartsOnOneLine(body, "; \r");
    assert TERMINATOR == "; \r" + [NL];
  }

  lemma RowsLine(header: string, rows: seq<string>)
    requires NL !in header && header != [] && rows != [] && AllOnOneLine(rows)
    ensures var text := StatementText(header, rows);
            text != [] && text == text[..|text| - 1] + [NL] && NL !in text[..|text| - 1]
  {
    StatementRows(header, rows);
    JoinOnOneLine(rows);
    PartsOnOneLine(header, Join(rows, ','));
    TerminatedLine(header + Join(rows, ','));
  }

  lemma OneStatementOneLine(stmt: Stmt)
    requires FitsALine(stmt)
    ensures StmtText(stmt) == StmtLine(stmt) + [NL] && NL !in StmtLine(stmt)
  {
    hide RecordsOnOneLine, AllLong, MainTexts, CandidateRowTexts, StatementText, Text, MainHeader, CandidateHeader,
      CreateMainPieces, CreateCandidatesPieces;
    match stmt
    case CreateMain(t) =>
      CreateMainLine(t);
      TerminatedLine(Text(CreateMainPieces(t)));
    case CreateCandidates(t) =>
      CreateCandidatesLine(t);
      TerminatedLine(Text(CreateCandidatesPieces(t)));
    case InsertMain(t, data) =>
      HeadersOnOneLine(t);
      MainLines(data);
      RowsLine(MainHeader(t), MainTexts(data));
    case InsertCandidates(t, data) =>
      HeadersOnOneLine(t);
      CandidateRowLines(data);
      RowsLine(CandidateHeader(t), CandidateRowTexts(data));
  }

  // ---------- files ----------

  ghost predicate AllFit(stmts: seq<Stmt>) {
    stmts != [] ==> FitsALine(stmts[0]) && AllFit(stmts[1..])
  }

  /** The text of a file: its statements, one behind the other. */
  ghost function FileText(stmts: seq<Stmt>): string
    requires AllFit(stmts)
  {
    if stmts == [] then [] else StmtText(stmts[0]) + FileText(stmts[1..])
  }

  ghost function StmtLines(stmts: seq<Stmt>): seq<string>
    requires AllFit(stmts)
  {
    if stmts == [] then [] else [StmtLine(stmts[0])] + StmtLines(stmts[1..])
  }

  /** Line `k` is statement `k`, less its line end. */
  lemma {:induction false} StmtLinesAt(stmts: seq<Stmt>, k: nat)
    requires AllFit(stmts) && k < |stmts|
    ensures |StmtLines(stmts)| == |stmts| && FitsALine(stmts[k]) && StmtLines(stmts)[k] + [NL] == StmtText(stmts[k])
  {
    hide FitsALine, StmtText, StmtLine;
    if k == 0 {
      OneStatementOneLine(stmts[0]);
      StmtLinesLength(stmts);
    } else {
      StmtLinesAt(stmts[1..], k - 1);
    }
  }

  lemma {:induction false} StmtLinesLength(stmts: seq<Stmt>)
    requires AllFit(stmts)
    ensures |StmtLines(stmts)| == |stmts|
  {
    hide FitsALine, StmtLine;
    if stmts != [] {
      StmtLinesLength(stmts[1..]);
    }
  }

  lemma {:induction false} FileIsLines(stmts: seq<Stmt>)
    requires AllFit(stmts)
    ensures FileText(stmts) == Lines(StmtLines(stmts), NL)
    ensures DelimiterFree(StmtLines(stmts), NL)
  {
    hide FitsALine, StmtText, StmtLine;
    if stmts != [] {
      OneStatementOneLine(stmts[0]);
      FileIsLines(stmts[1..]);
    }
  }

  /** Reading a file line by line yields its statements, each whole and in order. */
  lemma FileReadBack(stmts: seq<Stmt>)
    requires AllFit(stmts)
    ensures Tokens(FileText(stmts), NL) == StmtLines(stmts)
  {
    hide FitsALine, StmtText, StmtLine, FileText, StmtLines;
    FileIsLines(stmts);
    TokensOfLines(StmtLines(stmts), NL);
  }

  lemma {:induction false} AllFitAppend(stmts: seq<Stmt>, more: seq<Stmt>)
    requires AllFit(stmts) && AllFit(more)
    ensures AllFit(stmts + more)
  {
    hide FitsALine;
    if stmts == [] {
      assert stmts + more == more;
    } else {
      assert (stmts + more)[1..] == stmts[1..] + more;
      AllFitAppend(stmts[1..], more);
    }
  }

  /** Appending statements appends their text. */
  lemma {:induction false} FileTextAppend(stmts: seq<Stmt>, more: seq<Stmt>)
    requires AllFit(stmts) && AllFit(more)
    ensures AllFit(stmts + more)
    ensures FileText(stmts + more) == FileText(stmts) + FileText(more)
  {
    hide AllLong, RecordsOnOneLine, StmtText;
    AllFitAppend(stmts, more);
    if stmts == [] {
      assert stmts + more == more;
    } else {
      assert (stmts + more)[1..] == stmts[1..] + more;
      FileTextAppend(stmts[1..], more);
      Associative(StmtText(stmts[0]), FileText(stmts[1..]), FileText(more));
    }
  }

  // ---------- what a parser writes ----------

  lemma PartOnOneLine(s: string, n: nat)
    requires NL !in s && n <= |s|
    ensures NL !in s[..n]
  {
    assert forall c :: c in s[..n] ==> c in s;
  }

  /** A group is named after digits. */
  lemma GroupNameOnOneLine(c: Config, t: string, data: Records)
    requires GroupOk(t, data)
    ensures NL !in t && NL !in Table(c, t)
  {
    var key := Member(data.Keys);
    var stamp := data[key].timestamp;
    assert NL !in stamp;
    PartOnOneLine(stamp, 12);
    PartsOnOneLine("t", stamp[..12]);
    if |t| > 5 {
      PartOnOneLine(t, 5);
    }
  }

  lemma GroupFits(c: Config, t: string, data: Records)
    requires GroupOk(t, data) && RecordsOnOneLine(data)
    ensures FitsALine(CreateMain(Table(c, t))) && FitsALine(CreateCandidates(Table(c, t)))
    ensures FitsALine(InsertMain(Table(c, t), data)) && FitsALine(InsertCandidates(Table(c, t), data))
  {
    hide RecordsOnOneLine, Table, MainTexts, CandidateRowTexts;
    GroupNameOnOneLine(c, t, data);
    GroupHasRows(t, data);
  }

  lemma FileTextOfOne(a: Stmt)
    requires FitsALine(a)
    ensures AllFit([a]) && FileText([a]) == StmtText(a)
  {
    hide StmtText, AllLong, RecordsOnOneLine;
    assert [a][1..] == [];
    RightUnit(StmtText(a));
  }

  lemma FileTextOfTwo(a: Stmt, b: Stmt)
    requires FitsALine(a) && FitsALine(b)
    ensures AllFit([a, b]) && FileText([a, b]) == StmtText(a) + StmtText(b)
  {
    hide StmtText, FitsALine, AllFit, FileText;
    FileTextOfOne(a);
    FileTextOfOne(b);
    assert [a] + [b] == [a, b];
    AllFitAppend([a], [b]);
    FileTextAppend([a], [b]);
  }

  lemma GroupFileText(c: Config, t: string, create: bool, data: Records)
    requires GroupOk(t, data) && RecordsOnOneLine(data)
    ensures AllFit(Statements(c, t, create, data))
    ensures FileText(Statements(c, t, create, data))
         == (if create then StmtText(CreateMain(Table(c, t))) + StmtText(CreateCandidates(Table(c, t))) else [])
          + (StmtText(InsertMain(Table(c, t), data)) + StmtText(InsertCandidates(Table(c, t), data)))
  {
    hide FitsALine, StmtText, Table, GroupOk, RecordsOnOneLine;
    GroupFits(c, t, data);
    var tb := Table(c, t);
    var creates, inserts := [CreateMain(tb), CreateCandidates(tb)], [InsertMain(tb, data), InsertCandidates(tb, data)];
    FileTextOfTwo(CreateMain(tb), CreateCandidates(tb));
    FileTextOfTwo(InsertMain(tb, data), InsertCandidates(tb, data));
    if create {
      FileTextAppend(creates, inserts);
    } else {
      assert [] + inserts == inserts;
    }
  }

  lemma Timestamps(t: string, data: Records)
    requires GroupOk(t, data)
    ensures AllLong(data)
  {
  }

  /** The writes of `csv2sql` to an open file append exactly the statements of the group. */
  method WriteGroup(c: Config, t: string, createTable: bool, data: Records, contents: string) returns (text: string)
    requires GroupOk(t, data) && RecordsOnOneLine(data)
    ensures AllFit(Statements(c, t, createTable, data))
    ensures text == contents + FileText(Statements(c, t, createTable, data))
  {
    hide RecordsOnOneLine, AllFit, FileText, GroupOk, Table, Statements, MainTexts, CandidateRowTexts, StatementText,
      AllLong, MainHeader, CandidateHeader, CreateMainPieces, CreateCandidatesPieces, Text;
    Timestamps(t, data);
    GroupFileText(c, t, createTable, data);
    text := contents;
    if createTable {
      var query := CreateDecoderDataTableQuery(Table(c, t));
      text := text + query;
    } else {
      RightUnit(contents);
    }
    ghost var creates := if createTable then text[|contents|..] else [];
    var main := BuildInsertIntoSQL(Table(c, t), data);
    text := text + main.value;
    var candidates := BuildInsertBeesIDIntoSQL(Table(c, t), data);
    text := text + candidates;
    Together(contents, creates, main.value, candidates);
  }

  lemma Together(a: string, b: string, c: string, d: string)
    ensures a + b + c + d == a + (b + (c + d))
  {
  }
}
