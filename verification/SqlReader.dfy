/** A reader for the row grammar, and the proof that it undoes the statement builders. */
module SqlReader {
  import opened Wrappers
  import opened Decimal
  import opened Delimited
  import opened Ordered
  import opened Sequences
  import opened Replace
  import opened Decoder
  import opened Minutes
  import opened Rows
  import opened Sql

  // ---------- tokens ----------

  function Expect(literal: string, s: string): Option<string> {
    if |literal| <= |s| && s[..|literal|] == literal then Some(s[|literal|..]) else None
  }

  /** Everything in front of the next `stop`, which is left in place. */
  function ReadUntil(stop: char, s: string): (string, string) {
    var i := FirstIndex(s, stop);
    (s[..i], s[i..])
  }

  lemma ExpectOwn(literal: string, rest: string)
    ensures Expect(literal, literal + rest) == Some(rest)
  {
  }

  lemma UntilOwn(t: string, stop: char, rest: string)
    requires stop !in t && rest != [] && rest[0] == stop
    ensures ReadUntil(stop, t + rest) == (t, rest)
  {
    FirstIndexAt(t, stop, rest[1..]);
    assert t + [stop] + rest[1..] == t + rest;
  }

  // ---------- the main table ----------

  datatype MainRow = MainRow(id: int, time: Time, offset: string, x: int, y: int, camID: int)

  function ReadTime(s: string): Option<(Time, string, string)> {
    var s1 :- Expect("TIMESTAMP '", s);
    var (year, s2) :- ReadInt(s1);
    var s3 :- Expect("-", s2);
    var (month, s4) :- ReadInt(s3);
    var s5 :- Expect("-", s4);
    var (day, s6) :- ReadInt(s5);
    var s7 :- Expect(" ", s6);
    var (hour, s8) :- ReadInt(s7);
    var s9 :- Expect(":", s8);
    var (min, s10) :- ReadInt(s9);
    var s11 :- Expect(":", s10);
    var (sec, s12) :- ReadInt(s11);
    var s13 :- Expect(".", s12);
    var (offset, s14) := ReadUntil('\'', s13);
    var s15 :- Expect("'", s14);
    Some((Time(year, month, day, hour, min, sec), offset, s15))
  }

  function ReadMainRow(s: string): Option<(MainRow, string)> {
    var s1 :- Expect("(", s);
    var (id, s2) :- ReadInt(s1);
    var s3 :- Expect(", ", s2);
    var (time, offset, s4) :- ReadTime(s3);
    var s5 :- Expect(", ", s4);
    var (x, s6) :- ReadInt(s5);
    var s7 :- Expect(", ", s6);
    var (y, s8) :- ReadInt(s7);
    var s9 :- Expect(", ", s8);
    var (cam, s10) :- ReadInt(s9);
    var s11 :- Expect(", ", s10);
    var s12 :- Expect("0", s11);
    var s13 :- Expect(", ", s12);
    var s14 :- Expect("-1, FALSE, FALSE, -1", s13);
    var s15 :- Expect(")", s14);
    Some((MainRow(id, time, offset, x, y, cam), s15))
  }

  /** What the text of a record says. */
  function MainRowOf(r: DecoderData): MainRow
    requires LongEnough(r.timestamp)
  {
    MainRow(r.id, TimeOf(r.timestamp), r.offset, r.x, r.y, r.camID)
  }

  /** The laws of the three token readers, for every remaining text. */
  lemma TokenLaws()
    ensures forall literal, rest {:trigger Expect(literal, literal + rest)} :: Expect(literal, literal + rest) == Some(rest)
    ensures forall n, rest {:trigger ReadInt(IntText(n) + rest)} ::
              rest == [] || !IsDigit(rest[0]) ==> ReadInt(IntText(n) + rest) == Some((n, rest))
  {
    forall literal, rest
      ensures Expect(literal, literal + rest) == Some(rest)
    {
      ExpectOwn(literal, rest);
    }
    forall n, rest | rest == [] || !IsDigit(rest[0])
      ensures ReadInt(IntText(n) + rest) == Some((n, rest))
    {
      ReadIntOfText(n, rest);
    }
  }

  lemma {:induction false} TimeReadBack(t: Time, offset: string, rest: string)
    requires '\'' !in offset
    ensures ReadTime(Onto(StampPieces(t, offset), 0, rest)) == Some((t, offset, rest))
  {
    hide Expect, ReadInt, ReadUntil, IntText, Onto;
    var p := StampPieces(t, offset);
    TokenLaws();
    OntoSteps(p, rest);
    UntilOwn(offset, '\'', "'" + rest);
  }

  /** `Onto`, one piece at a time. */
  lemma {:induction false} OntoSteps(pieces: seq<string>, rest: string)
    ensures forall k {:trigger Onto(pieces, k, rest)} ::
              0 <= k < |pieces| ==> Onto(pieces, k, rest) == pieces[k] + Onto(pieces, k + 1, rest)
    ensures Onto(pieces, |pieces|, rest) == rest
  {
  }

  predicate Printable(r: DecoderData) {
    LongEnough(r.timestamp) && '\'' !in r.offset
  }

  lemma {:induction false} MainRowReadBack(r: DecoderData, rest: string)
    requires Printable(r)
    ensures ReadMainRow(Text(MainPieces(r)) + rest) == Some((MainRowOf(r), rest))
  {
    hide Expect, ReadInt, ReadUntil, IntText, Onto, ReadTime, StampPieces, TimeOf;
    var p, stamp := MainPieces(r), StampPieces(TimeOf(r.timestamp), r.offset);
    TextOnto(p, 0, rest);
    TokenLaws();
    OntoSteps(p, rest);
    TextOnto(stamp, 0, Onto(p, 4, rest));
    TimeReadBack(TimeOf(r.timestamp), r.offset, Onto(p, 4, rest));
    PointOnto(IntText(r.x), IntText(r.y), Onto(p, 6, rest));
  }

  lemma PointOnto(x: string, y: string, rest: string)
    ensures (x + ", " + y) + rest == x + (", " + (y + rest))
  {
  }

  // ---------- the candidate table ----------

  /** What an unquoted `%f` text is made of. */
  predicate IsNumberText(s: string) {
    forall c :: c in s ==> IsDigit(c) || c == '-' || c == '.'
  }

  predicate PrintableRotation(r: Rotation) {
    r.Finite? ==> IsNumberText(r.text)
  }

  predicate PrintableCandidate(c: Candidate) {
    PrintableRotation(c.xRotation) && PrintableRotation(c.yRotation) && PrintableRotation(c.zRotation)
  }

  function ReadRotation(s: string): (Rotation, string) {
    var (t, rest) := ReadUntil(',', s);
    ((if t == QUOTED_INF then PlusInfinity else if t == QUOTED_MINUS_INF then MinusInfinity else Finite(t)), rest)
  }

  function ReadCandidateRow(s: string): Option<(Row, string)> {
    var s1 :- Expect("(", s);
    var (id, s2) :- ReadInt(s1);
    var s3 :- Expect(", ", s2);
    var (tag, s4) :- ReadInt(s3);
    var s5 :- Expect(", ", s4);
    var (x, s6) :- ReadInt(s5);
    var s7 :- Expect(", ", s6);
    var (y, s8) :- ReadInt(s7);
    var s9 :- Expect(", ", s8);
    var (score, s10) :- ReadInt(s9);
    var s11 :- Expect(", ", s10);
    var (rx, s12) := ReadRotation(s11);
    var s13 :- Expect(", ", s12);
    var (ry, s14) := ReadRotation(s13);
    var s15 :- Expect(", ", s14);
    var (rz, s16) := ReadRotation(s15);
    var s17 :- Expect(", ", s16);
    var (bee, s18) :- ReadInt(s17);
    var s19 :- Expect(")", s18);
    Some((Row(id, Candidate(tag, x, y, rx, ry, rz, score, bee)), s19))
  }

  lemma NumberTextPlain(s: string)
    requires IsNumberText(s)
    ensures ',' !in s && !Contains(s, INF) && s != QUOTED_INF && s != QUOTED_MINUS_INF
  {
    forall i: nat | i <= |s|
      ensures !OccursAt(s, INF, i)
    {
      InfAt(s, i);
      if i < |s| {
        assert s[i] in s;
      }
    }
    assert QUOTED_INF[0] == '\'' && QUOTED_MINUS_INF[0] == '\'';
    if s != [] {
      assert s[0] in s;
    }
  }

  lemma {:induction false} RotationReadBack(r: Rotation, rest: string)
    requires PrintableRotation(r) && rest != [] && rest[0] == ','
    ensures ReadRotation(Quoted(RotationText(r)) + rest) == (r, rest)
  {
    hide Quoted, ReadUntil;
    QuotedInfinities();
    if r.Finite? {
      NumberTextPlain(r.text);
      QuotedFixes(r.text);
    }
    assert ',' !in QUOTED_INF && ',' !in QUOTED_MINUS_INF;
    UntilOwn(Quoted(RotationText(r)), ',', rest);
  }

  lemma {:induction false} CandidateRowReadBack(id: int, c: Candidate, rest: string)
    requires PrintableCandidate(c)
    ensures ReadCandidateRow(Text(CandidatePieces(id, c)) + rest) == Some((Row(id, c), rest))
  {
    hide Expect, ReadInt, ReadRotation, IntText, Onto, Quoted, RotationText;
    var p := CandidatePieces(id, c);
    TextOnto(p, 0, rest);
    TokenLaws();
    OntoSteps(p, rest);
    RotationReadBack(c.xRotation, Onto(p, 12, rest));
    RotationReadBack(c.yRotation, Onto(p, 14, rest));
    RotationReadBack(c.zRotation, Onto(p, 16, rest));
  }

  // ---------- statements ----------

  /** Rows separated by commas. */
  function ReadRows<R>(read: string -> Option<(R, string)>, s: string): Option<(seq<R>, string)>
    decreases |s|
  {
    var (row, rest) :- read(s);
    if rest != [] && rest[0] == ',' && |rest| <= |s| then
      var (rows, end) :- ReadRows(read, rest[1..]);
      Some(([row] + rows, end))
    else Some(([row], rest))
  }

  lemma {:induction false} RowsReadBack<R(!new)>(
      read: string -> Option<(R, string)>, texts: seq<string>, rows: seq<R>, rest: string)
    requires texts != [] && |texts| == |rows| && rest != [] && rest[0] != ','
    requires forall i, t :: 0 <= i < |texts| ==> read(texts[i] + t) == Some((rows[i], t))
    ensures ReadRows(read, Join(texts, ',') + rest) == Some((rows, rest))
  {
    var first, row := texts[0], rows[0];
    if |texts| == 1 {
      assert Join(texts, ',') == first && rows == [row];
      assert read(texts[0] + rest) == Some((rows[0], rest));
    } else {
      var more := Join(texts[1..], ',') + rest;
      assert Join(texts, ',') + rest == first + ([','] + more) by {
        assert first + [','] + Join(texts[1..], ',') + rest == first + ([','] + (Join(texts[1..], ',') + rest));
      }
      assert read(texts[0] + ([','] + more)) == Some((rows[0], [','] + more));
      assert ([','] + more)[1..] == more;
      RowsReadBack(read, texts[1..], rows[1..], rest);
      assert [row] + rows[1..] == rows;
    }
  }

  function ReadInsertMain(s: string): Option<(string, seq<MainRow>)> {
    var s1 :- Expect(INSERT, s);
    var (table, s2) := ReadUntil(' ', s1);
    var s3 :- Expect(MAIN_COLUMNS, s2);
    var (rows, s4) :- ReadRows(ReadMainRow, s3);
    if s4 == TERMINATOR then Some((table, rows)) else None
  }

  function ReadInsertCandidates(s: string): Option<(string, seq<Row>)> {
    var s1 :- Expect(INSERT, s);
    var (name, s2) := ReadUntil('(', s1);
    var s3 :- Expect(CANDIDATE_COLUMNS, s2);
    var (rows, s4) :- ReadRows(ReadCandidateRow, s3);
    if s4 == TERMINATOR && name != [] && name[|name| - 1] == 'b' then Some((name[..|name| - 1], rows)) else None
  }

  predicate AllPrintable(data: Records) {
    forall key :: key in data ==> Printable(data[key])
  }

  ghost function MainRows(data: Records): seq<MainRow>
    requires AllPrintable(data)
    decreases |data|
  {
    if data == map[] then []
    else
      var key := Least(data.Keys);
      [MainRowOf(data[key])] + MainRows(data - {key})
  }

  predicate CandidatesPrintable(cs: seq<Candidate>) {
    forall i :: 0 <= i < |cs| ==> PrintableCandidate(cs[i])
  }

  ghost predicate AllCandidatesPrintable(data: Records) {
    forall key :: key in data ==> CandidatesPrintable(Values(data[key].candidate))
  }

  /** All candidate rows in printing order. */
  ghost function CandidateRows(data: Records): seq<Row>
    decreases |data|
  {
    if data == map[] then []
    else
      var key := Least(data.Keys);
      RecordRows(data[key]) + CandidateRows(data - {key})
  }

  lemma {:induction false} MainTextsReadBack(data: Records, i: nat, rest: string)
    requires AllPrintable(data)
    ensures |MainTexts(data)| == |MainRows(data)| == |data|
    ensures i < |data| ==> ReadMainRow(MainTexts(data)[i] + rest) == Some((MainRows(data)[i], rest))
    decreases |data|
  {
    hide ReadMainRow, MainPieces, MainRowOf, Text;
    if data != map[] {
      var key := Least(data.Keys);
      assert Printable(data[key]);
      MainRowReadBack(data[key], rest);
      MainTextsReadBack(data - {key}, if i == 0 then 0 else i - 1, rest);
    }
  }

  /** Reading the main INSERT gives the table and every record, in key order, timestamps included. */
  lemma {:induction false} InsertMainReadBack(table: string, data: Records)
    requires data != map[] && AllPrintable(data) && ' ' !in table
    ensures ReadInsertMain(StatementText(MainHeader(table), MainTexts(data))) == Some((table, MainRows(data)))
  {
    hide Expect, ReadUntil, ReadRows, ReadMainRow, MainTexts, MainRows, StatementText, Join;
    var texts, rows := MainTexts(data), MainRows(data);
    MainTextsReadBack(data, 0, "");
    StatementRows(MainHeader(table), texts);
    forall i, t | 0 <= i < |texts|
      ensures ReadMainRow(texts[i] + t) == Some((rows[i], t))
    {
      MainTextsReadBack(data, i, t);
    }
    RowsReadBack(ReadMainRow, texts, rows, TERMINATOR);
    var s3 := Join(texts, ',') + TERMINATOR;
    HeaderOnto(INSERT, table, MAIN_COLUMNS, Join(texts, ','), TERMINATOR);
    ExpectOwn(INSERT, table + (MAIN_COLUMNS + s3));
    FirstColumn();
    UntilOwn(table, ' ', MAIN_COLUMNS + s3);
    ExpectOwn(MAIN_COLUMNS, s3);
  }

  lemma FirstColumn()
    ensures |MAIN_COLUMNS| > 0 && MAIN_COLUMNS[0] == ' '
  {
    assert RECORD_COLUMNS[0] == ' ';
    FirstOf(RECORD_COLUMNS, CAMERA_COLUMNS + (TRACK_COLUMNS + (FOLLOW_COLUMNS + VALUES)));
  }

  lemma FirstOf<T>(a: seq<T>, b: seq<T>)
    requires a != []
    ensures |a + b| > 0 && (a + b)[0] == a[0]
  {
  }

  lemma NotInSnoc<T>(x: T, s: seq<T>, last: T)
    requires x !in s && x != last
    ensures x !in s + [last]
  {
  }

  lemma HeaderOnto(a: string, b: string, c: string, d: string, e: string)
    ensures a + b + c + d + e == a + (b + (c + (d + e)))
  {
  }

  lemma {:induction false} CandidateTextsReadBack(id: int, cs: seq<Candidate>, i: nat, rest: string)
    requires CandidatesPrintable(cs)
    ensures |CandidateTexts(id, cs)| == |Labelled(id, cs)| == |cs|
    ensures i < |cs| ==> ReadCandidateRow(CandidateTexts(id, cs)[i] + rest) == Some((Row(id, cs[i]), rest))
    decreases |cs|
  {
    hide ReadCandidateRow, CandidatePieces, Text;
    LabelledAt(id, cs);
    if cs != [] {
      CandidateRowReadBack(id, cs[0], rest);
      CandidateTextsReadBack(id, cs[1..], if i == 0 then 0 else i - 1, rest);
    }
  }

  lemma {:induction false} LabelledAt(id: int, cs: seq<Candidate>)
    ensures |Labelled(id, cs)| == |cs|
    ensures forall i :: 0 <= i < |cs| ==> Labelled(id, cs)[i] == Row(id, cs[i])
  {
    if cs != [] {
      LabelledAt(id, cs[..|cs| - 1]);
    }
  }

  lemma {:induction false} CandidateRowTextsReadBack(data: Records, i: nat, rest: string)
    requires AllCandidatesPrintable(data)
    ensures |CandidateRowTexts(data)| == |CandidateRows(data)|
    ensures i < |CandidateRows(data)| ==>
              ReadCandidateRow(CandidateRowTexts(data)[i] + rest) == Some((CandidateRows(data)[i], rest))
    decreases |data|
  {
    hide ReadCandidateRow, CandidateTexts, Labelled, Values;
    if data != map[] {
      var key := Least(data.Keys);
      var id, cs := data[key].id, Values(data[key].candidate);
      assert CandidatesPrintable(cs);
      CandidateTextsReadBack(id, cs, i, rest);
      LabelledAt(id, cs);
      CandidateRowTextsReadBack(data - {key}, if i < |cs| then 0 else i - |cs|, rest);
    }
  }

  /** Reading the candidate INSERT gives the table and every (id, candidate) pair, in printing order. */
  lemma {:induction false} InsertCandidatesReadBack(table: string, data: Records)
    requires CandidateRows(data) != [] && AllCandidatesPrintable(data) && '(' !in table
    ensures ReadInsertCandidates(StatementText(CandidateHeader(table), CandidateRowTexts(data)))
         == Some((table, CandidateRows(data)))
  {
    hide Expect, ReadUntil, ReadRows, ReadCandidateRow, CandidateRowTexts, CandidateRows, StatementText, Join;
    var texts, rows := CandidateRowTexts(data), CandidateRows(data);
    CandidateRowTextsReadBack(data, 0, "");
    StatementRows(CandidateHeader(table), texts);
    forall i, t | 0 <= i < |texts|
      ensures ReadCandidateRow(texts[i] + t) == Some((rows[i], t))
    {
      CandidateRowTextsReadBack(data, i, t);
    }
    RowsReadBack(ReadCandidateRow, texts, rows, TERMINATOR);
    var name, s3 := table + "b", Join(texts, ',') + TERMINATOR;
    Associative(INSERT, table, "b");
    HeaderOnto(INSERT, name, CANDIDATE_COLUMNS, Join(texts, ','), TERMINATOR);
    ExpectOwn(INSERT, name + (CANDIDATE_COLUMNS + s3));
    assert CANDIDATE_COLUMNS[0] == '(';
    NotInSnoc('(', table, 'b');
    UntilOwn(name, '(', CANDIDATE_COLUMNS + s3);
    ExpectOwn(CANDIDATE_COLUMNS, s3);
    assert name[..|table|] == table;
  }
}
