/** Which value an INSERT puts under which column, and which columns the CREATEs declare, read from the text. */
module ColumnOrder {
  import opened Sequences
  import opened Decimal
  import opened Replace
  import opened Decoder
  import opened Sql
  import opened SqlReader
  import opened SqlFile

  // ---------- lists in parentheses ----------

  /** Where an entry of a list ends. */
  function EntryEnd(s: string): (i: nat)
    ensures i <= |s|
  {
    if s == [] || s[0] == ',' || s[0] == ')' then 0 else 1 + EntryEnd(s[1..])
  }

  function SkipBlanks(s: string): (r: string)
    ensures |r| <= |s|
  {
    if s != [] && s[0] == ' ' then SkipBlanks(s[1..]) else s
  }

  /** The entries of a list behind its opening parenthesis, up to the first closing one. */
  function Entries(s: string): seq<string>
    decreases |s|
  {
    var i := EntryEnd(s);
    [s[..i]] + if i < |s| && s[i] == ',' then Entries(SkipBlanks(s[i + 1..])) else []
  }

  /** Entries from the `k`-th on, each behind its own separator, and the closing parenthesis. */
  function Listed(entries: seq<string>, gaps: seq<string>, k: nat, rest: string): string
    requires k < |entries| == |gaps|
    decreases |entries| - k
  {
    entries[k] + if k == |entries| - 1 then ")" + rest else gaps[k] + Listed(entries, gaps, k + 1, rest)
  }

  predicate Plain(entry: string) {
    ',' !in entry && ')' !in entry && (entry != [] ==> entry[0] != ' ')
  }

  predicate IsGap(gap: string) {
    gap == "," || gap == ", "
  }

  lemma {:induction false} EntryEndAt(entry: string, stop: char, rest: string)
    requires ',' !in entry && ')' !in entry && (stop == ',' || stop == ')')
    ensures EntryEnd(entry + ([stop] + rest)) == |entry|
  {
    if entry == [] {
      assert entry + ([stop] + rest) == [stop] + rest;
    } else {
      assert (entry + ([stop] + rest))[1..] == entry[1..] + ([stop] + rest);
      EntryEndAt(entry[1..], stop, rest);
    }
  }

  lemma NoBlanks(entry: string, rest: string)
    requires Plain(entry) && rest != [] && rest[0] != ' '
    ensures SkipBlanks(entry + rest) == entry + rest
    ensures SkipBlanks(" " + (entry + rest)) == entry + rest
  {
    assert (" " + (entry + rest))[1..] == entry + rest;
    if entry == [] {
      assert entry + rest == rest;
    }
  }

  lemma FirstEntry(entry: string, tail: string)
    requires ',' !in entry && ')' !in entry
    ensures Entries(entry + ([','] + tail)) == [entry] + Entries(SkipBlanks(tail))
  {
    hide EntryEnd, SkipBlanks;
    var s := entry + ([','] + tail);
    EntryEndAt(entry, ',', tail);
    assert s[..|entry|] == entry && s[|entry|] == ',' && s[|entry| + 1..] == tail;
  }

  lemma LastEntry(entry: string, rest: string)
    requires ',' !in entry && ')' !in entry
    ensures Entries(entry + (")" + rest)) == [entry]
  {
    hide EntryEnd, SkipBlanks;
    var s := entry + ([')'] + rest);
    EntryEndAt(entry, ')', rest);
    assert s[..|entry|] == entry && s[|entry|] == ')';
  }

  /** Reading a list gives its entries. */
  lemma {:induction false} EntriesOfListed(entries: seq<string>, gaps: seq<string>, k: nat, rest: string)
    requires k < |entries| == |gaps|
    requires (forall i :: 0 <= i < |entries| ==> Plain(entries[i])) && (forall i :: 0 <= i < |gaps| ==> IsGap(gaps[i]))
    ensures Entries(Listed(entries, gaps, k, rest)) == entries[k..]
    decreases |entries| - k
  {
    hide Entries, SkipBlanks;
    assert Plain(entries[k]) && IsGap(gaps[k]);
    if k == |entries| - 1 {
      LastEntry(entries[k], rest);
    } else {
      var more := Listed(entries, gaps, k + 1, rest);
      var blank := gaps[k][1..];
      assert gaps[k] + more == [','] + (blank + more);
      FirstEntry(entries[k], blank + more);
      SkipsTo(entries, gaps, k + 1, rest, blank);
      EntriesOfListed(entries, gaps, k + 1, rest);
    }
  }

  lemma SkipsTo(entries: seq<string>, gaps: seq<string>, k: nat, rest: string, blank: string)
    requires k < |entries| == |gaps| && Plain(entries[k]) && IsGap(gaps[k]) && (blank == "" || blank == " ")
    ensures SkipBlanks(blank + Listed(entries, gaps, k, rest)) == Listed(entries, gaps, k, rest)
  {
    hide Plain, SkipBlanks;
    var behind := if k == |entries| - 1 then ")" + rest else gaps[k] + Listed(entries, gaps, k + 1, rest);
    NoBlanks(entries[k], behind);
    if blank == "" {
      assert blank + Listed(entries, gaps, k, rest) == Listed(entries, gaps, k, rest);
    }
  }

  lemma {:induction false} ListedSteps(entries: seq<string>, gaps: seq<string>, rest: string)
    requires |entries| == |gaps|
    ensures forall k {:trigger Listed(entries, gaps, k, rest)} :: 0 <= k < |entries| - 1 ==>
              Listed(entries, gaps, k, rest) == entries[k] + (gaps[k] + Listed(entries, gaps, k + 1, rest))
    ensures forall k {:trigger Listed(entries, gaps, k, rest)} :: 0 <= k == |entries| - 1 ==>
              Listed(entries, gaps, k, rest) == entries[k] + (")" + rest)
  {
  }

  // ---------- the rows ----------

  const ROW_GAPS: seq<string> := [", ", ", ", ", ", ", ", ", ", ", ", ", ", ", ", ", ", ", "]

  /** A value and the column it stands under. */
  datatype Cell = Cell(column: string, text: string)

  function MainValues(r: DecoderData): seq<string>
    requires LongEnough(r.timestamp)
  {
    [IntText(r.id), Text(StampPieces(TimeOf(r.timestamp), r.offset)), IntText(r.x), IntText(r.y), IntText(r.camID),
     "0", "-1", "FALSE", "FALSE", "-1"]
  }

  lemma FlagsOnto(rest: string)
    ensures "-1, FALSE, FALSE, -1" + (")" + rest)
         == "-1" + (", " + ("FALSE" + (", " + ("FALSE" + (", " + ("-1" + (")" + rest)))))))
  {
    assert "-1, FALSE, FALSE, -1" == "-1" + (", " + ("FALSE" + (", " + ("FALSE" + (", " + "-1")))));
  }

  lemma MainListed(r: DecoderData)
    requires LongEnough(r.timestamp)
    ensures Text(MainPieces(r)) == "(" + Listed(MainValues(r), ROW_GAPS, 0, "")
  {
    hide IntText, Onto, StampPieces, TimeOf;
    var p := MainPieces(r);
    OntoSteps(p, "");
    ListedSteps(MainValues(r), ROW_GAPS, "");
    PointOnto(IntText(r.x), IntText(r.y), Onto(p, 6, ""));
    FlagsOnto("");
  }

  function CandidateValues(id: int, c: Candidate): seq<string> {
    [IntText(id), IntText(c.tag), IntText(c.x), IntText(c.y), IntText(c.score), Quoted(RotationText(c.xRotation)),
     Quoted(RotationText(c.yRotation)), Quoted(RotationText(c.zRotation)), IntText(c.bee)]
  }

  lemma CandidateListed(id: int, c: Candidate)
    ensures Text(CandidatePieces(id, c)) == "(" + Listed(CandidateValues(id, c), ROW_GAPS[..9], 0, "")
  {
    hide IntText, Onto, Quoted, RotationText;
    OntoSteps(CandidatePieces(id, c), "");
    ListedSteps(CandidateValues(id, c), ROW_GAPS[..9], "");
  }

  // ---------- the headers ----------

  const PLACE_NAMES: seq<string> := ["id", "\"timestamp\"", "x", "y", "\"camID\"", "orientation"]
  const FLAG_NAMES: seq<string> := ["\"trackID\"", "\"isDancing\"", "\"isFollowing\"", "\"followedBeeID\""]
  const MAIN_NAMES: seq<string> := PLACE_NAMES + FLAG_NAMES
  const MAIN_GAPS: seq<string> := [", ", ", ", ",", ", ", ", ", ", ", ", ", ", ", ", ", ", "]

  lemma RecordColumnNames(rest: string)
    ensures RECORD_COLUMNS + rest == " (" + ("id" + (", " + ("\"timestamp\"" + (", " + ("x" + ("," + ("y" + (", " + rest))))))))
  {
    assert RECORD_COLUMNS == " (" + ("id" + (", " + ("\"timestamp\"" + (", " + ("x" + ("," + ("y" + ", ")))))));
  }

  lemma CameraColumnNames(rest: string)
    ensures CAMERA_COLUMNS + rest == "\"camID\"" + (", " + ("orientation" + (", " + rest)))
  {
    assert CAMERA_COLUMNS == "\"camID\"" + (", " + ("orientation" + ", "));
  }

  lemma TrackColumnNames(rest: string)
    ensures TRACK_COLUMNS + rest == "\"trackID\"" + (", " + ("\"isDancing\"" + (", " + rest)))
  {
    assert TRACK_COLUMNS == "\"trackID\"" + (", " + ("\"isDancing\"" + ", "));
  }

  lemma FollowColumnNames(rest: string)
    ensures FOLLOW_COLUMNS + rest == "\"isFollowing\"" + (", " + ("\"followedBeeID\"" + (")" + rest)))
  {
    assert FOLLOW_COLUMNS == "\"isFollowing\"" + (", " + ("\"followedBeeID\"" + ")"));
  }

  lemma MainHeaderListed()
    ensures MAIN_COLUMNS == " (" + Listed(MAIN_NAMES, MAIN_GAPS, 0, VALUES)
  {
    hide RECORD_COLUMNS, CAMERA_COLUMNS, TRACK_COLUMNS, FOLLOW_COLUMNS, VALUES;
    ListedSteps(MAIN_NAMES, MAIN_GAPS, VALUES);
    RecordColumnNames(CAMERA_COLUMNS + (TRACK_COLUMNS + (FOLLOW_COLUMNS + VALUES)));
    CameraColumnNames(TRACK_COLUMNS + (FOLLOW_COLUMNS + VALUES));
    TrackColumnNames(FOLLOW_COLUMNS + VALUES);
    FollowColumnNames(VALUES);
  }

  const BOX_NAMES: seq<string> := ["id", "candidateID", "x", "y", "score"]
  const ANGLE_NAMES: seq<string> := ["xRotation", "yRotation", "zRotation", "\"beeID\""]
  const CANDIDATE_NAMES: seq<string> := BOX_NAMES + ANGLE_NAMES
  const COMMAS: seq<string> := [",", ",", ",", ",", ",", ",", ",", ",", ",", ",", ","]

  lemma DetectionColumnNames(rest: string)
    ensures DETECTION_COLUMNS + rest == "(" + ("id" + ("," + ("candidateID" + ("," + ("x" + ("," + ("y" + ("," + ("score" + ("," + rest))))))))))
  {
    assert DETECTION_COLUMNS == "(" + ("id" + ("," + ("candidateID" + ("," + ("x" + ("," + ("y" + ("," + ("score" + ",")))))))));
  }

  lemma RotationColumnNames(rest: string)
    ensures ROTATION_COLUMNS + rest
         == "xRotation" + ("," + ("yRotation" + ("," + ("zRotation" + ("," + ("\"beeID\"" + (")" + (" " + rest))))))))
  {
    assert ROTATION_COLUMNS == "xRotation" + ("," + ("yRotation" + ("," + ("zRotation" + ("," + ("\"beeID\"" + (")" + " ")))))));
  }

  lemma CandidateHeaderListed()
    ensures CANDIDATE_COLUMNS == "(" + Listed(CANDIDATE_NAMES, COMMAS[..9], 0, " " + VALUES)
  {
    hide DETECTION_COLUMNS, ROTATION_COLUMNS, VALUES;
    ListedSteps(CANDIDATE_NAMES, COMMAS[..9], " " + VALUES);
    DetectionColumnNames(ROTATION_COLUMNS + VALUES);
    RotationColumnNames(VALUES);
  }

  // ---------- plain entries ----------

  lemma IntTextPlain(n: int)
    ensures Plain(IntText(n))
  {
    NatTextValue(if n < 0 then -n else n);
    assert IntText(n)[0] in IntText(n);
  }

  lemma {:induction false} OntoWithout(pieces: seq<string>, k: nat, d: char)
    requires k <= |pieces| && forall i :: 0 <= i < |pieces| ==> d !in pieces[i]
    ensures d !in Onto(pieces, k, "")
    decreases |pieces| - k
  {
    if k < |pieces| {
      OntoWithout(pieces, k + 1, d);
    }
  }

  lemma StampWithout(t: Time, offset: string, d: char)
    requires d !in offset && (d == ',' || d == ')')
    ensures d !in Text(StampPieces(t, offset))
  {
    hide IntText, Onto;
    IntTextPlain(t.year);
    IntTextPlain(t.month);
    IntTextPlain(t.day);
    IntTextPlain(t.hour);
    IntTextPlain(t.min);
    IntTextPlain(t.sec);
    OntoWithout(StampPieces(t, offset), 0, d);
  }

  lemma StampPlain(t: Time, offset: string)
    requires ',' !in offset && ')' !in offset
    ensures Plain(Text(StampPieces(t, offset)))
  {
    hide IntText, Onto;
    StampWithout(t, offset, ',');
    StampWithout(t, offset, ')');
    OntoSteps(StampPieces(t, offset), "");
  }

  lemma RotationPlain(r: Rotation)
    requires PrintableRotation(r)
    ensures Plain(Quoted(RotationText(r)))
  {
    hide Quoted;
    QuotedInfinities();
    if r.Finite? {
      NumberTextPlain(r.text);
      QuotedFixes(r.text);
      assert r.text != [] ==> r.text[0] in r.text;
    }
  }

  predicate AllPlain(entries: seq<string>) {
    forall i :: 0 <= i < |entries| ==> Plain(entries[i])
  }

  lemma PlaceNamesPlain()
    ensures AllPlain(PLACE_NAMES)
  {
  }

  lemma FlagNamesPlain()
    ensures AllPlain(FLAG_NAMES)
  {
  }

  lemma CandidateNamesPlain()
    ensures AllPlain(BOX_NAMES) && AllPlain(ANGLE_NAMES)
  {
  }

  lemma FlagsPlain()
    ensures Plain("0") && Plain("-1") && Plain("FALSE")
  {
  }

  lemma BothPlain(a: seq<string>, b: seq<string>)
    requires AllPlain(a) && AllPlain(b)
    ensures AllPlain(a + b)
  {
    hide Plain;
  }

  lemma MainValuesPlain(r: DecoderData)
    requires LongEnough(r.timestamp) && ',' !in r.offset && ')' !in r.offset
    ensures AllPlain(MainValues(r))
  {
    hide IntText, TimeOf, StampPieces, Text, Plain;
    IntTextPlain(r.id);
    IntTextPlain(r.x);
    IntTextPlain(r.y);
    IntTextPlain(r.camID);
    StampPlain(TimeOf(r.timestamp), r.offset);
    FlagsPlain();
  }

  lemma CandidateValuesPlain(id: int, c: Candidate)
    requires PrintableCandidate(c)
    ensures AllPlain(CandidateValues(id, c))
  {
    hide IntText, Quoted, RotationText, Plain;
    IntTextPlain(id);
    IntTextPlain(c.tag);
    IntTextPlain(c.x);
    IntTextPlain(c.y);
    IntTextPlain(c.score);
    IntTextPlain(c.bee);
    RotationPlain(c.xRotation);
    RotationPlain(c.yRotation);
    RotationPlain(c.zRotation);
  }

  // ---------- what stands under which column ----------

  /** A list read from a text that begins with `opening`. */
  predicate Reads(text: string, opening: string, entries: seq<string>) {
    opening <= text && Entries(text[|opening|..]) == entries
  }

  lemma ReadsListed(opening: string, entries: seq<string>, gaps: seq<string>, rest: string)
    requires 0 < |entries| == |gaps| && AllPlain(entries) && forall i :: 0 <= i < |gaps| ==> IsGap(gaps[i])
    ensures Reads(opening + Listed(entries, gaps, 0, rest), opening, entries)
  {
    hide Plain, IsGap, Listed, Entries;
    EntriesOfListed(entries, gaps, 0, rest);
    assert (opening + Listed(entries, gaps, 0, rest))[|opening|..] == Listed(entries, gaps, 0, rest);
  }

  /** What stands under which column in a header and a row of its statement. */
  predicate Under(header: string, opening: string, row: string, cells: seq<Cell>) {
    && Reads(header, opening, seq(|cells|, i requires 0 <= i < |cells| => cells[i].column))
    && Reads(row, "(", seq(|cells|, i requires 0 <= i < |cells| => cells[i].text))
  }

  lemma MainHeaderReads()
    ensures Reads(MAIN_COLUMNS, " (", MAIN_NAMES)
  {
    hide MAIN_COLUMNS, Reads, Listed, Plain, PLACE_NAMES, FLAG_NAMES;
    MainHeaderListed();
    PlaceNamesPlain();
    FlagNamesPlain();
    BothPlain(PLACE_NAMES, FLAG_NAMES);
    assert |MAIN_NAMES| == 10 by { MainNamesSize(); }
    ReadsListed(" (", MAIN_NAMES, MAIN_GAPS, VALUES);
  }

  lemma MainNamesSize()
    ensures |MAIN_NAMES| == 10
  {
  }

  /** The columns of the main table, each with its value. */
  function MainCells(r: DecoderData): seq<Cell>
    requires LongEnough(r.timestamp)
  {
    [Cell("id", IntText(r.id)), Cell("\"timestamp\"", Text(StampPieces(TimeOf(r.timestamp), r.offset))),
     Cell("x", IntText(r.x)), Cell("y", IntText(r.y)), Cell("\"camID\"", IntText(r.camID)), Cell("orientation", "0"),
     Cell("\"trackID\"", "-1"), Cell("\"isDancing\"", "FALSE"), Cell("\"isFollowing\"", "FALSE"),
     Cell("\"followedBeeID\"", "-1")]
  }

  lemma MainCellsSplit(r: DecoderData)
    requires LongEnough(r.timestamp)
    ensures var cells := MainCells(r);
            && seq(|cells|, i requires 0 <= i < |cells| => cells[i].column) == MAIN_NAMES
            && seq(|cells|, i requires 0 <= i < |cells| => cells[i].text) == MainValues(r)
  {
    hide IntText, TimeOf, StampPieces, Text;
  }

  /** In the text of a main INSERT every value stands under its own column. */
  lemma MainUnderColumns(r: DecoderData)
    requires LongEnough(r.timestamp) && ',' !in r.offset && ')' !in r.offset
    ensures Under(MAIN_COLUMNS, " (", Text(MainPieces(r)), MainCells(r))
  {
    hide MAIN_COLUMNS, MAIN_NAMES, Reads, Text, MainPieces, MainValues, Listed, Plain, MainCells;
    MainHeaderReads();
    MainListed(r);
    MainValuesPlain(r);
    assert |MainValues(r)| == 10 by { MainValuesSize(r); }
    ReadsListed("(", MainValues(r), ROW_GAPS, "");
    MainCellsSplit(r);
  }

  lemma MainValuesSize(r: DecoderData)
    requires LongEnough(r.timestamp)
    ensures |MainValues(r)| == 10
  {
  }

  /** The columns of the candidate table, each with its value. */
  function CandidateCells(id: int, c: Candidate): seq<Cell> {
    [Cell("id", IntText(id)), Cell("candidateID", IntText(c.tag)), Cell("x", IntText(c.x)), Cell("y", IntText(c.y)),
     Cell("score", IntText(c.score)), Cell("xRotation", Quoted(RotationText(c.xRotation))),
     Cell("yRotation", Quoted(RotationText(c.yRotation))), Cell("zRotation", Quoted(RotationText(c.zRotation))),
     Cell("\"beeID\"", IntText(c.bee))]
  }

  lemma CandidateCellsSplit(id: int, c: Candidate)
    ensures var cells := CandidateCells(id, c);
            && seq(|cells|, i requires 0 <= i < |cells| => cells[i].column) == CANDIDATE_NAMES
            && seq(|cells|, i requires 0 <= i < |cells| => cells[i].text) == CandidateValues(id, c)
  {
    hide IntText, Quoted, RotationText;
  }

  lemma CandidateSizes(id: int, c: Candidate)
    ensures |CANDIDATE_NAMES| == 9 && |CandidateValues(id, c)| == 9
  {
  }

  /** And so does every value of a candidate INSERT. */
  lemma CandidateUnderColumns(id: int, c: Candidate)
    requires PrintableCandidate(c)
    ensures Under(CANDIDATE_COLUMNS, "(", Text(CandidatePieces(id, c)), CandidateCells(id, c))
  {
    hide CANDIDATE_COLUMNS, BOX_NAMES, ANGLE_NAMES, Reads, Text, CandidatePieces, CandidateValues, Listed, Plain,
      CandidateCells;
    CandidateHeaderListed();
    CandidateNamesPlain();
    BothPlain(BOX_NAMES, ANGLE_NAMES);
    CandidateListed(id, c);
    CandidateValuesPlain(id, c);
    CandidateSizes(id, c);
    ReadsListed("(", CANDIDATE_NAMES, COMMAS[..9], " " + VALUES);
    ReadsListed("(", CandidateValues(id, c), ROW_GAPS[..9], "");
    CandidateCellsSplit(id, c);
  }

  // ---------- CREATE TABLE ----------

  /** A field of a table and its type. */
  function Field(name: string, fieldType: string): string {
    name + " " + fieldType
  }

  const BIG := "bigint"
  const SMALL := "smallint"
  const REAL := "real"
  const BOOL := "boolean"
  const TIMESTAMP := "timestamp without time zone"

  const ID_DECLARED: seq<string> := [Field("id", BIG), Field("\"timestamp\"", TIMESTAMP)]
  const PLACE_DECLARED: seq<string> :=
    [Field("\"camID\"", SMALL), Field("x", SMALL), Field("y", SMALL), Field("\"orientation\"", SMALL)]
  const LATER_DECLARED: seq<string> :=
    [Field("\"trackID\"", SMALL), Field("\"isDancing\"", BOOL), Field("\"isFollowing\"", BOOL),
     Field("\"followedBeeID\"", SMALL), "PRIMARY KEY (id"]

  const MAIN_DECLARED: seq<string> := ID_DECLARED + (PLACE_DECLARED + LATER_DECLARED)
  const SCORE_DECLARED: seq<string> :=
    [Field("id", BIG), Field("candidateID", SMALL), Field("x", SMALL), Field("y", SMALL), Field("score", SMALL)]
  const ANGLE_DECLARED: seq<string> :=
    [Field("xRotation", REAL), Field("yRotation", REAL), Field("zRotation", REAL), Field("\"beeID\"", SMALL),
     "PRIMARY KEY (id", "candidateID"]
  const CANDIDATE_DECLARED: seq<string> := SCORE_DECLARED + ANGLE_DECLARED

  lemma {:induction false} OntoJoined(a: seq<string>, k: nat, b: seq<string>, rest: string)
    requires k <= |a|
    ensures Onto(a + b, k, rest) == Onto(a, k, Onto(b, 0, rest))
    decreases |a| - k
  {
    if k < |a| {
      OntoJoined(a, k + 1, b, rest);
    } else {
      OntoShifted(a, b, 0, rest);
    }
  }

  lemma {:induction false} OntoShifted(a: seq<string>, b: seq<string>, k: nat, rest: string)
    requires k <= |b|
    ensures Onto(a + b, |a| + k, rest) == Onto(b, k, rest)
    decreases |b| - k
  {
    if k < |b| {
      OntoShifted(a, b, k + 1, rest);
    }
  }

  /** Pieces that hold an entry and its separator each. */
  predicate Holds(pieces: seq<string>, entries: seq<string>, gaps: seq<string>) {
    |pieces| < |entries| == |gaps| && forall k :: 0 <= k < |pieces| ==> pieces[k] == entries[k] + gaps[k]
  }

  lemma {:induction false} OntoListed(pieces: seq<string>, entries: seq<string>, gaps: seq<string>, k: nat, rest: string)
    requires Holds(pieces, entries, gaps) && k <= |pieces|
    ensures Onto(pieces, k, Listed(entries, gaps, |pieces|, rest)) == Listed(entries, gaps, k, rest)
    decreases |pieces| - k
  {
    if k < |pieces| {
      OntoListed(pieces, entries, gaps, k + 1, rest);
      Associative(entries[k], gaps[k], Listed(entries, gaps, k + 1, rest));
    }
  }

  lemma OpeningOnto(opening: string, first: string, more: seq<string>, rest: string)
    ensures Onto([opening + first] + more, 0, rest) == opening + Onto([first] + more, 0, rest)
  {
    OntoShifted([opening + first], more, 0, rest);
    OntoShifted([first], more, 0, rest);
    Associative(opening, first, Onto(more, 0, rest));
  }

  lemma TimestampDeclared()
    ensures ID_FIELDS[1] == Field("\"timestamp\"", TIMESTAMP) + ","
  {
    var name := "\"timestamp\" ";
    assert "\"timestamp\"" + " " == name && TIMESTAMP + "," == "timestamp without time zone,";
    Associative(name, TIMESTAMP, ",");
  }

  lemma FirstDeclared()
    ensures ID_FIELDS[0] == "(" + (Field("id", BIG) + ",") && CANDIDATE_FIELDS[1] == "(" + (Field("id", BIG) + ", ")
  {
  }

  lemma PlaceDeclared()
    ensures |PLACE_FIELDS| == |PLACE_DECLARED| == 4
    ensures forall k :: 0 <= k < 4 ==> PLACE_FIELDS[k] == PLACE_DECLARED[k] + ","
  {
  }

  lemma LaterDeclared()
    ensures |LATER_FIELDS| == 6 && |LATER_DECLARED| == 5
    ensures LATER_FIELDS[0] == LATER_DECLARED[0] + "," && LATER_FIELDS[1] == LATER_DECLARED[1] + ","
  {
  }

  lemma LastDeclared()
    ensures |LATER_FIELDS| == 6 && |LATER_DECLARED| == 5
    ensures LATER_FIELDS[2] == LATER_DECLARED[2] + "," && LATER_FIELDS[3] == LATER_DECLARED[3] + ","
  {
  }

  lemma LaterEnd()
    ensures LATER_FIELDS[4] + (LATER_FIELDS[5] + "") == LATER_DECLARED[4] + (")" + " )")
  {
  }

  lemma ScoreDeclared()
    ensures |CANDIDATE_FIELDS| == 6 && |SCORE_DECLARED| == 5 && CANDIDATE_FIELDS[0] == "b "
    ensures CANDIDATE_FIELDS[2] == SCORE_DECLARED[1] + ", "
    ensures CANDIDATE_FIELDS[3] == SCORE_DECLARED[2] + "," && CANDIDATE_FIELDS[4] == SCORE_DECLARED[3] + ","
    ensures CANDIDATE_FIELDS[5] == SCORE_DECLARED[4] + ", "
  {
  }

  lemma AngleDeclared()
    ensures |ROTATION_FIELDS| == 5 && |ANGLE_DECLARED| == 6
    ensures forall k :: 0 <= k < 4 ==> ROTATION_FIELDS[k] == ANGLE_DECLARED[k] + ","
  {
  }

  lemma AngleEnd(rest: string)
    ensures ROTATION_FIELDS[4] + rest == ANGLE_DECLARED[4] + (", " + (ANGLE_DECLARED[5] + (")" + (", " + rest))))
  {
    assert ROTATION_FIELDS[4] == ANGLE_DECLARED[4] + (", " + (ANGLE_DECLARED[5] + (")" + ", ")));
  }

  /** The entries of a list whose first piece opens it. */
  lemma OpenedList(pieces: seq<string>, entries: seq<string>, gaps: seq<string>, rest: string)
    requires pieces != [] && |pieces| < |entries| == |gaps| && pieces[0] == "(" + (entries[0] + gaps[0])
    requires forall k :: 1 <= k < |pieces| ==> pieces[k] == entries[k] + gaps[k]
    ensures Onto(pieces, 0, Listed(entries, gaps, |pieces|, rest)) == "(" + Listed(entries, gaps, 0, rest)
  {
    var first, more, end := entries[0] + gaps[0], pieces[1..], Listed(entries, gaps, |pieces|, rest);
    assert pieces == ["(" + first] + more;
    OpeningOnto("(", first, more, end);
    OntoListed([first] + more, entries, gaps, 0, rest);
  }

  lemma TwoNames(a: string, b: string, more: seq<string>)
    ensures Text([a, b] + more) == a + (b + Onto(more, 0, ""))
  {
    OntoShifted([a, b], more, 0, "");
    OntoSteps([a, b] + more, "");
  }

  lemma MainDeclaredParts()
    ensures |MAIN_FIELDS| == 6 && |LATER_FIELDS| == 6 && |MAIN_DECLARED| == 11
    ensures MAIN_FIELDS[0] == "(" + (MAIN_DECLARED[0] + ",")
    ensures forall k :: 1 <= k < 6 ==> MAIN_FIELDS[k] == MAIN_DECLARED[k] + ","
    ensures forall k :: 0 <= k < 4 ==> LATER_FIELDS[k] == MAIN_DECLARED[6 + k] + ","
    ensures LATER_FIELDS[4] + (LATER_FIELDS[5] + "") == MAIN_DECLARED[10] + (")" + " )")
  {
    hide ID_FIELDS, PLACE_FIELDS, LATER_FIELDS, Field, ID_DECLARED, PLACE_DECLARED, LATER_DECLARED;
    IdSizes();
    FirstDeclared();
    TimestampDeclared();
    PlaceDeclared();
    LaterDeclared();
    LastDeclared();
    LaterEnd();
  }

  lemma IdSizes()
    ensures |ID_FIELDS| == 2 && |ID_DECLARED| == 2
    ensures ID_DECLARED[0] == Field("id", BIG) && ID_DECLARED[1] == Field("\"timestamp\"", TIMESTAMP)
  {
    hide Field;
  }

  /** The CREATE of the main table names the table and declares its fields in this order and with these types. */
  lemma MainDeclared(table: string)
    ensures Text(CreateMainPieces(table)) == CREATE + (table + ("(" + Listed(MAIN_DECLARED, COMMAS, 0, " )")))
  {
    hide CREATE, MAIN_FIELDS, LATER_FIELDS, MAIN_DECLARED, Onto, Listed;
    MainDeclaredParts();
    var pieces, end := MAIN_FIELDS + LATER_FIELDS[..4], LATER_FIELDS[4..];
    assert CreateMainPieces(table) == [CREATE, table] + (pieces + end);
    TwoNames(CREATE, table, pieces + end);
    OntoJoined(pieces, 0, end, "");
    OntoSteps(end, "");
    ListedSteps(MAIN_DECLARED, COMMAS, " )");
    OpenedList(pieces, MAIN_DECLARED, COMMAS, " )");
  }

  const CANDIDATE_GAPS: seq<string> := [", ", ", ", ",", ",", ", ", ",", ",", ",", ",", ", ", ", "]

  lemma CandidateDeclaredParts(rest: string)
    ensures |CANDIDATE_FIELDS| == 6 && |ROTATION_FIELDS| == 5 && |CANDIDATE_DECLARED| == 11
    ensures CANDIDATE_FIELDS[0] == "b " && CANDIDATE_FIELDS[1] == "(" + (CANDIDATE_DECLARED[0] + CANDIDATE_GAPS[0])
    ensures forall k :: 1 <= k < 5 ==> CANDIDATE_FIELDS[1 + k] == CANDIDATE_DECLARED[k] + CANDIDATE_GAPS[k]
    ensures forall k :: 0 <= k < 4 ==> ROTATION_FIELDS[k] == CANDIDATE_DECLARED[5 + k] + CANDIDATE_GAPS[5 + k]
    ensures ROTATION_FIELDS[4] + rest == CANDIDATE_DECLARED[9] + (", " + (CANDIDATE_DECLARED[10] + (")" + (", " + rest))))
  {
    hide CANDIDATE_FIELDS, ROTATION_FIELDS, Field, SCORE_DECLARED, ANGLE_DECLARED;
    ScoreFirst();
    FirstDeclared();
    ScoreDeclared();
    AngleDeclared();
    AngleEnd(rest);
  }

  lemma ScoreFirst()
    ensures |SCORE_DECLARED| == 5 && SCORE_DECLARED[0] == Field("id", BIG)
  {
    hide Field;
  }

  /**
   * The CREATE of the candidate table names it after the main table, declares its
   * fields, and refers to the main table.
   */
  lemma CandidatesDeclared(table: string)
    ensures Text(CreateCandidatesPieces(table))
         == CREATE + (table + ("b " + ("(" + Listed(CANDIDATE_DECLARED, CANDIDATE_GAPS, 0,
                                                     ", " + (REFERENCES + (table + (ON_CHANGE + "")))))))
  {
    hide CREATE, REFERENCES, ON_CHANGE, CANDIDATE_FIELDS, ROTATION_FIELDS, CANDIDATE_DECLARED, Onto, Listed;
    var last := [REFERENCES, table, ON_CHANGE];
    var rest := REFERENCES + (table + (ON_CHANGE + ""));
    CandidateDeclaredParts(rest);
    var pieces, end := CANDIDATE_FIELDS[1..] + ROTATION_FIELDS[..4], [ROTATION_FIELDS[4]] + last;
    assert CreateCandidatesPieces(table) == [CREATE, table] + (["b "] + (pieces + end));
    TwoNames(CREATE, table, ["b "] + (pieces + end));
    OntoShifted(["b "], pieces + end, 0, "");
    OntoSteps(["b "] + (pieces + end), "");
    OntoJoined(pieces, 0, end, "");
    OntoShifted([ROTATION_FIELDS[4]], last, 0, "");
    OntoSteps(end, "");
    OntoSteps(last, "");
    ListedSteps(CANDIDATE_DECLARED, CANDIDATE_GAPS, ", " + rest);
    OpenedList(pieces, CANDIDATE_DECLARED, CANDIDATE_GAPS, ", " + rest);
  }

  // ---------- the names of the tables ----------

  /** The text up to the first blank or opening parenthesis. */
  function FirstWord(s: string): string {
    if s == [] || s[0] == ' ' || s[0] == '(' then [] else [s[0]] + FirstWord(s[1..])
  }

  /** The table a statement names behind its first words. */
  function NameBehind(opening: string, s: string): string {
    if opening <= s then FirstWord(s[|opening|..]) else []
  }

  predicate OneWord(word: string) {
    ' ' !in word && '(' !in word
  }

  lemma {:induction false} FirstWordAt(word: string, rest: string)
    requires OneWord(word) && rest != [] && (rest[0] == ' ' || rest[0] == '(')
    ensures FirstWord(word + rest) == word
  {
    if word == [] {
      assert word + rest == rest;
    } else {
      assert (word + rest)[1..] == word[1..] + rest;
      FirstWordAt(word[1..], rest);
    }
  }

  lemma NameAt(opening: string, name: string, rest: string)
    requires OneWord(name) && rest != [] && (rest[0] == ' ' || rest[0] == '(')
    ensures NameBehind(opening, opening + (name + rest)) == name
  {
    FirstWordAt(name, rest);
    assert (opening + (name + rest))[|opening|..] == name + rest;
  }

  lemma HeaderTexts(table: string)
    ensures MainHeader(table) == INSERT + (table + MAIN_COLUMNS)
    ensures CandidateHeader(table) == INSERT + ((table + "b") + CANDIDATE_COLUMNS)
    ensures MAIN_COLUMNS != [] && MAIN_COLUMNS[0] == ' ' && CANDIDATE_COLUMNS != [] && CANDIDATE_COLUMNS[0] == '('
  {
    FirstColumn();
    hide MAIN_COLUMNS;
    Associative(INSERT, table, MAIN_COLUMNS);
    Associative(INSERT, table, "b");
    Associative(INSERT, table + "b", CANDIDATE_COLUMNS);
  }

  lemma CreateText(table: string, fields: string)
    ensures table + ("b " + fields) == (table + "b") + (" " + fields)
  {
  }

  /** The statements of a group name the same two tables: the second has one more "b". */
  lemma SameTables(table: string)
    requires OneWord(table)
    ensures NameBehind(CREATE, Text(CreateMainPieces(table))) == table == NameBehind(INSERT, MainHeader(table))
    ensures NameBehind(CREATE, Text(CreateCandidatesPieces(table))) == table + "b" == NameBehind(INSERT, CandidateHeader(table))
  {
    hide NameBehind, Listed, CREATE, REFERENCES, ON_CHANGE, INSERT, MAIN_COLUMNS, CANDIDATE_COLUMNS, Text, MAIN_DECLARED,
      CANDIDATE_DECLARED, MainHeader, CandidateHeader, CreateMainPieces, CreateCandidatesPieces;
    HeaderTexts(table);
    MainDeclared(table);
    CandidatesDeclared(table);
    DeclaredSizes();
    NameAt(INSERT, table, MAIN_COLUMNS);
    NameAt(INSERT, table + "b", CANDIDATE_COLUMNS);
    NameAt(CREATE, table, "(" + Listed(MAIN_DECLARED, COMMAS, 0, " )"));
    var fields := "(" + Listed(CANDIDATE_DECLARED, CANDIDATE_GAPS, 0, ", " + (REFERENCES + (table + (ON_CHANGE + ""))));
    CreateText(table, fields);
    NameAt(CREATE, table + "b", " " + fields);
  }

  lemma DeclaredSizes()
    ensures |MAIN_DECLARED| == 11 && |CANDIDATE_DECLARED| == 11
  {
    hide Field;
  }
}
