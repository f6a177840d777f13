/** From csv lines to decoder records: the grouping loops of main.cpp. */
module Decoder {
  import opened Wrappers
  import opened Decimal
  import opened Delimited
  import opened Packing
  import opened Binary
  import opened Ordered
  import opened Sequences

  const MAX_TAGS_PRO_IMAGE := 400

  /** A `float`: its `%f` text, or an infinity. */
  datatype Rotation = Finite(text: string) | PlusInfinity | MinusInfinity

  datatype Candidate = Candidate(
    tag: int, x: int, y: int,
    xRotation: Rotation, yRotation: Rotation, zRotation: Rotation,
    score: int, bee: int)

  datatype DecoderData = DecoderData(
    id: int, timestamp: string, offset: string,
    x: int, y: int, camID: int,
    candidate: map<int, Candidate>)

  /** What the program takes from its surroundings: `mktime`, the configured epoch, `stod`. */
  datatype Environment = Environment(
    epoch: string -> int,
    experimentBegin: nat,
    stod: string -> Option<Rotation>)

  // ---------- what a file name says ----------

  datatype Stamp = Stamp(timestamp: string, offset: string, camID: int, centisecs: int) {
    /** Camera and moment: what tells two pictures apart in a record id. */
    function Shot(): (int, int) {
      (camID, centisecs)
    }
  }

  /** The shape "Cam_2_20140805100033_2.csv" the program indexes into without checks. */
  predicate WellNamed(name: string) {
    var t := Tokens(name, '_');
    |t| >= 4 && Stoi(t[1]).Some? && |t[2]| == 14 && AllDigits(t[2])
  }

  /** Table and file stem of a timestamp: "t" and its first twelve characters. */
  function Minute(timestamp: string): (t: string)
    ensures t != [] && t[0] == 't'
  {
    "t" + if |timestamp| > 12 then timestamp[..12] else timestamp
  }

  function Atoi(s: string): int {
    match Stoi(s)
    case Some(n) => n
    case None => 0
  }

  /** The fourth name token without its last four characters, cut to three. */
  function Offset(token: string): string {
    var offset := if |token| >= 4 then token[..|token| - 4] else token;
    if |offset| <= 3 then offset else offset[..3]
  }

  /** Hundredths of a second since the experiment began; 0 for dates before it. */
  function Centisecs(env: Environment, date: string, offset: string): int {
    var seconds := env.epoch(date) % ULONG_SIZE;
    if seconds < env.experimentBegin then 0
    else Int64((seconds - env.experimentBegin) * 100 + Atoi(if |offset| > 2 then offset[..2] else offset))
  }

  method DateToCentisecs(env: Environment, date: string, fullOffset: string) returns (r: int)
    ensures r == Centisecs(env, date, fullOffset)
  {
    var res := env.epoch(date) % ULONG_SIZE;
    if res < env.experimentBegin {
      return 0;
    }
    var centisecs := res - env.experimentBegin;
    WrapTwice(centisecs * 100, Atoi(if |fullOffset| > 2 then fullOffset[..2] else fullOffset));
    centisecs := centisecs * 100 % ULONG_SIZE;
    var offset := fullOffset;
    if |offset| > 2 {
      offset := offset[..2];
    }
    centisecs := (centisecs + Atoi(offset)) % ULONG_SIZE;
    r := Int64(centisecs);
  }

  function StampOf(env: Environment, name: string): Stamp
    requires WellNamed(name)
  {
    var t := Tokens(name, '_');
    var offset := Offset(t[3]);
    Stamp(t[2], offset, Short(Stoi(t[1]).value), Centisecs(env, t[2], offset))
  }

  // ---------- what a line says ----------

  /** The map key of a tag in a file: `unsigned` arithmetic, stored as an `int`. */
  function MapKey(fileNum: int, tag: int): int {
    Int32(tag + fileNum * MAX_TAGS_PRO_IMAGE)
  }

  /** One accepted line; `id` is the id the line gives to a record it opens. */
  datatype Detection = Detection(
    fileNum: int, tag: int, cand: int, grid: int, id: int, stamp: Stamp, candidate: Candidate)
  {
    function Key(): int {
      MapKey(fileNum, tag)
    }
  }

  datatype LineResult = Skipped | Throws | Accepted(d: Detection)

  /** Lines with fewer than ten tokens or a negative coordinate are skipped; unreadable numbers throw. */
  function ParseLine(env: Environment, fileNum: int, stamp: Stamp, line: string): LineResult {
    var t := Tokens(line, ',');
    if |t| < 10 then Skipped
    else if Stoi(t[3]).None? || Stoi(t[4]).None? then Throws
    else if Stoi(t[3]).value < 0 || Stoi(t[4]).value < 0 then Skipped
    else
      match ReadDetection(env, fileNum, stamp, t)
      case None => Throws
      case Some(d) => Accepted(d)
  }

  function ReadDetection(env: Environment, fileNum: int, stamp: Stamp, t: seq<string>): Option<Detection>
    requires |t| >= 10 && Stoi(t[3]).Some? && Stoi(t[4]).Some?
  {
    var tag :- Stoi(t[0]);
    var cand :- Stoi(t[1]);
    var grid :- Stoi(t[2]);
    var rx :- env.stod(t[5]);
    var ry :- env.stod(t[6]);
    var rz :- env.stod(t[7]);
    var score :- Stoi(t[8]);
    var x, y := Short(Stoi(t[3]).value), Short(Stoi(t[4]).value);
    Some(Detection(
      fileNum, Short(tag), Short(cand), Short(grid),
      RecordId(stamp.centisecs, x, y, stamp.camID, Short(tag)), stamp,
      Candidate(CandidateId(Short(tag), Short(cand), Short(grid)), x, y, rx, ry, rz, Short(score), BeeId(t[9]))))
  }

  /** What one line contributes; None when it throws. */
  function LineDetections(env: Environment, fileNum: int, stamp: Stamp, line: string): Option<seq<Detection>> {
    if line == [] then Some([])
    else
      match ParseLine(env, fileNum, stamp, line)
      case Throws => None
      case Skipped => Some([])
      case Accepted(d) => Some([d])
  }

  /** The accepted lines of a file in line order; None when a line throws. */
  function FileDetections(env: Environment, fileNum: int, stamp: Stamp, lines: seq<string>): Option<seq<Detection>> {
    if lines == [] then Some([])
    else
      var before :- FileDetections(env, fileNum, stamp, lines[..|lines| - 1]);
      var own :- LineDetections(env, fileNum, stamp, lines[|lines| - 1]);
      Some(before + own)
  }

  function LinesOf(csv: map<string, seq<string>>, name: string): seq<string> {
    if name in csv then csv[name] else []
  }

  predicate AllWellNamed(names: seq<string>) {
    forall i :: 0 <= i < |names| ==> WellNamed(names[i])
  }

  /** The accepted lines of a list of files; file numbers start at 1. */
  function BatchDetections(env: Environment, names: seq<string>, csv: map<string, seq<string>>): Option<seq<Detection>>
    requires AllWellNamed(names)
  {
    if names == [] then Some([])
    else
      var last := |names| - 1;
      var before :- BatchDetections(env, names[..last], csv);
      var own :- FileDetections(env, |names|, StampOf(env, names[last]), LinesOf(csv, names[last]));
      Some(before + own)
  }

  // ---------- grouping ----------

  /** The detections filed under one key, in order. */
  function Select(ds: seq<Detection>, key: int): seq<Detection> {
    if ds == [] then []
    else
      var last := ds[|ds| - 1];
      Select(ds[..|ds| - 1], key) + if last.Key() == key then [last] else []
  }

  /**
   * The record of a group: identity and position come from its first line, the time
   * from its last, and the candidates are numbered 0, 1, ... in line order.
   */
  function Record(sel: seq<Detection>): DecoderData
    requires sel != []
  {
    var first, last := sel[0], sel[|sel| - 1];
    DecoderData(
      first.id, last.stamp.timestamp, last.stamp.offset,
      first.candidate.x, first.candidate.y, first.stamp.camID,
      Numbered(Candidates(sel)))
  }

  function Candidates(sel: seq<Detection>): (cs: seq<Candidate>)
    ensures |cs| == |sel|
  {
    if sel == [] then [] else Candidates(sel[..|sel| - 1]) + [sel[|sel| - 1].candidate]
  }

  /** Line by line: the group of the line's key becomes what the key now selects. */
  function Grouped(ds: seq<Detection>): map<int, DecoderData> {
    if ds == [] then map[]
    else
      var before, d := ds[..|ds| - 1], ds[|ds| - 1];
      Grouped(before)[d.Key() := Record(Select(before, d.Key()) + [d])]
  }

  /** The same map without any order of construction: one record per key, made of what the key selects. */
  lemma {:induction false} GroupedIsGroupBy(ds: seq<Detection>, key: int)
    ensures key in Grouped(ds) <==> Select(ds, key) != []
    ensures key in Grouped(ds) ==> Grouped(ds)[key] == Record(Select(ds, key))
  {
    if ds != [] {
      var before := Select(ds[..|ds| - 1], key);
      GroupedIsGroupBy(ds[..|ds| - 1], key);
      assert before + [] == before;
    }
  }

  lemma {:induction false} SelectSnoc(ds: seq<Detection>, d: Detection, key: int)
    ensures Select(ds + [d], key) == Select(ds, key) + if d.Key() == key then [d] else []
    ensures Grouped(ds + [d]) == Grouped(ds)[d.Key() := Record(Select(ds, d.Key()) + [d])]
  {
    assert (ds + [d])[..|ds|] == ds;
  }

  lemma {:induction false} CandidatesSnoc(sel: seq<Detection>, d: Detection)
    ensures Candidates(sel + [d]) == Candidates(sel) + [d.candidate]
    ensures Numbered(Candidates(sel + [d])) == Numbered(Candidates(sel))[|sel| := d.candidate]
    ensures |Numbered(Candidates(sel))| == |sel|
  {
    assert (sel + [d])[..|sel|] == sel;
    NumberedSnoc(Candidates(sel), d.candidate);
    NumberedAt(Candidates(sel));
  }

  /** The `std::map` that the parser fills in place, with the lines it has accepted so far. */
  class DecoderMap {
    var data: map<int, DecoderData>
    ghost var accepted: seq<Detection>

    ghost predicate Valid()
      reads this
    {
      data == Grouped(accepted)
    }

    constructor ()
      ensures Valid() && accepted == []
    {
      data := map[];
      accepted := [];
    }

    /**
     * Files one line. `ok` is false when a conversion throws; the exception is never
     * caught, so the process ends there.
     */
    method ParseCSVLine(env: Environment, fileNum: int, line: string, name: string) returns (ok: bool)
      requires Valid() && WellNamed(name) && line != []
      modifies this
      ensures match LineDetections(env, fileNum, StampOf(env, name), line)
              case None => !ok
              case Some(own) => ok && Valid() && accepted == old(accepted) + own
    {
      ghost var expected := LineDetections(env, fileNum, StampOf(env, name), line);
      RightUnit(accepted);
      ok := true;
      var tokens := Split(line, ',');
      if |tokens| < 10 {
        assert expected == Some([]);
      } else {
        var x, y := Stoi(tokens[3]), Stoi(tokens[4]);
        if x.None? || y.None? {
          ok := false;
          assert expected == None;
        } else if x.value < 0 || y.value < 0 {
          assert expected == Some([]);
        } else {
          ok := StoreDetection(env, fileNum, tokens, x.value, y.value, name);
          assert expected == match ReadDetection(env, fileNum, StampOf(env, name), tokens)
                             case None => None
                             case Some(d) => Some([d]);
        }
      }
    }

    /** The second half: open the record if its key is new, refresh its time, append a candidate. */
    method StoreDetection(env: Environment, fileNum: int, tokens: seq<string>, x: int, y: int, name: string)
      returns (ok: bool)
      requires Valid() && WellNamed(name)
      requires |tokens| >= 10 && Stoi(tokens[3]) == Some(x) && Stoi(tokens[4]) == Some(y)
      modifies this
      ensures match ReadDetection(env, fileNum, StampOf(env, name), tokens)
              case None => !ok
              case Some(d) => ok && Valid() && accepted == old(accepted) + [d]
    {
      ghost var stamp := StampOf(env, name);
      var nameTokens := Split(name, '_');
      var number := Stoi(tokens[0]);
      if number.None? {
        return false;
      }
      var tag := Short(number.value);
      var index := MapKey(fileNum, tag);
      var calcId := index !in data;
      var entry := if calcId then DecoderData(0, "", "", 0, 0, 0, map[]) else data[index];
      entry := entry.(timestamp := nameTokens[2], offset := Offset(nameTokens[3]));
      var cand, grid := Stoi(tokens[1]), Stoi(tokens[2]);
      if cand.None? || grid.None? {
        return false;
      }
      if calcId {
        var centisecs := DateToCentisecs(env, entry.timestamp, entry.offset);
        entry := entry.(x := Short(x), y := Short(y), camID := Short(Stoi(nameTokens[1]).value));
        var id := PackRecordId(centisecs, entry.x, entry.y, entry.camID, tag);
        entry := entry.(id := id);
      }
      var rx, ry, rz, score := env.stod(tokens[5]), env.stod(tokens[6]), env.stod(tokens[7]), Stoi(tokens[8]);
      if rx.None? || ry.None? || rz.None? || score.None? {
        return false;
      }
      var j := |entry.candidate|;
      var c := Candidate(
        CandidateId(tag, Short(cand.value), Short(grid.value)), Short(x), Short(y),
        rx.value, ry.value, rz.value, Short(score.value), BeeId(tokens[9]));
      entry := entry.(candidate := entry.candidate[j := c]);

      ghost var d := Detection(
        fileNum, tag, Short(cand.value), Short(grid.value),
        RecordId(stamp.centisecs, Short(x), Short(y), stamp.camID, tag), stamp, c);
      assert ReadDetection(env, fileNum, stamp, tokens) == Some(d);
      FileLine(accepted, d, entry);
      data := data[index := entry];
      accepted := accepted + [d];
      return true;
    }
  }

  /** What a new or an old entry must have become for the grouping to stay right. */
  lemma {:induction false} FileLine(ds: seq<Detection>, d: Detection, entry: DecoderData)
    requires var data, key := Grouped(ds), d.Key();
             if key in data then
               entry == data[key].(timestamp := d.stamp.timestamp, offset := d.stamp.offset,
                                   candidate := data[key].candidate[|data[key].candidate| := d.candidate])
             else
               entry == DecoderData(d.id, d.stamp.timestamp, d.stamp.offset,
                                    d.candidate.x, d.candidate.y, d.stamp.camID, map[0 := d.candidate])
    ensures Grouped(ds)[d.Key() := entry] == Grouped(ds + [d])
  {
    var sel := Select(ds, d.Key());
    SelectSnoc(ds, d, d.Key());
    GroupedIsGroupBy(ds, d.Key());
    CandidatesSnoc(sel, d);
    if sel == [] {
      assert Candidates(sel) == [] && sel + [d] == [d];
    }
  }

  /** The loop over the lines of one file. */
  method ReadLines(m: DecoderMap, env: Environment, fileNum: int, name: string, lines: seq<string>) returns (ok: bool)
    requires m.Valid() && WellNamed(name)
    modifies m
    ensures match FileDetections(env, fileNum, StampOf(env, name), lines)
            case None => !ok
            case Some(own) => ok && m.Valid() && m.accepted == old(m.accepted) + own
  {
    ghost var stamp, own := StampOf(env, name), [];
    for l := 0 to |lines|
      invariant m.Valid() && m.accepted == old(m.accepted) + own
      invariant FileDetections(env, fileNum, stamp, lines[..l]) == Some(own)
    {
      FileSnoc(env, fileNum, stamp, lines, l);
      ghost var more := LineDetections(env, fileNum, stamp, lines[l]);
      RightUnit(m.accepted);
      if |lines[l]| > 0 {
        var filed := m.ParseCSVLine(env, fileNum, lines[l], name);
        if !filed {
          FileThrows(env, fileNum, stamp, lines, l + 1);
          return false;
        }
      }
      Associative(old(m.accepted), own, more.value);
      own := own + more.value;
    }
    Whole(lines);
    return true;
  }

  lemma {:induction false} FileSnoc(env: Environment, fileNum: int, stamp: Stamp, lines: seq<string>, l: nat)
    requires l < |lines|
    ensures var before := FileDetections(env, fileNum, stamp, lines[..l]);
            var own := LineDetections(env, fileNum, stamp, lines[l]);
            FileDetections(env, fileNum, stamp, lines[..l + 1])
              == if before.Some? && own.Some? then Some(before.value + own.value) else None
  {
    Prefix(lines, l);
  }

  /** The loops over files and lines compute the grouping of all accepted lines, or end in a throw. */
  method FileContentToDecoderData(env: Environment, fileNames: seq<string>, csv: map<string, seq<string>>)
    returns (r: Option<map<int, DecoderData>>)
    requires AllWellNamed(fileNames)
    ensures match BatchDetections(env, fileNames, csv)
            case None => r == None
            case Some(ds) => r == Some(Grouped(ds))
  {
    var m := new DecoderMap();
    var fileNum := 1;
    for i := 0 to |fileNames|
      invariant fileNum == i + 1
      invariant m.Valid() && fresh(m)
      invariant BatchDetections(env, fileNames[..i], csv) == Some(m.accepted)
    {
      Prefix(fileNames, i);
      var ok := ReadLines(m, env, fileNum, fileNames[i], LinesOf(csv, fileNames[i]));
      if !ok {
        BatchThrows(env, fileNames, csv, i + 1);
        return None;
      }
      fileNum := fileNum + 1;
    }
    Whole(fileNames);
    r := Some(m.data);
  }

  lemma {:induction false} FileThrows(env: Environment, fileNum: int, stamp: Stamp, lines: seq<string>, n: nat)
    requires n <= |lines| && FileDetections(env, fileNum, stamp, lines[..n]).None?
    ensures FileDetections(env, fileNum, stamp, lines).None?
    decreases |lines|
  {
    if n < |lines| {
      var init := lines[..|lines| - 1];
      assert init[..n] == lines[..n];
      FileThrows(env, fileNum, stamp, init, n);
    } else {
      assert lines[..n] == lines;
    }
  }

  lemma {:induction false} BatchThrows(env: Environment, names: seq<string>, csv: map<string, seq<string>>, n: nat)
    requires AllWellNamed(names) && n <= |names| && BatchDetections(env, names[..n], csv).None?
    ensures BatchDetections(env, names, csv).None?
    decreases |names|
  {
    if n < |names| {
      var init := names[..|names| - 1];
      assert init[..n] == names[..n];
      BatchThrows(env, init, csv, n);
    } else {
      assert names[..n] == names;
    }
  }
}
