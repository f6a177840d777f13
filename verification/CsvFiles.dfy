/** All lines of all files of a batch are read, in order, and none twice. */
module CsvFiles {
  import opened Wrappers
  import opened Sequences
  import opened Ordered
  import opened Decoder

  /** Line `l` of file `i`. */
  datatype Position = Position(file: nat, line: nat)

  /** The files are in the csv directory under well-formed names. */
  predicate Present(names: seq<string>, csv: map<string, seq<string>>) {
    AllWellNamed(names) && forall i :: 0 <= i < |names| ==> names[i] in csv
  }

  /** What line `l` of file `i` of the batch contributes; None when it throws. */
  function LineAt(env: Environment, names: seq<string>, csv: map<string, seq<string>>, i: nat, l: nat): Option<seq<Detection>>
    requires Present(names, csv) && i < |names| && l < |csv[names[i]]|
  {
    LineDetections(env, i + 1, StampOf(env, names[i]), csv[names[i]][l])
  }

  predicate Throws(env: Environment, names: seq<string>, csv: map<string, seq<string>>, i: nat, l: nat)
    requires Present(names, csv)
  {
    i < |names| && l < |csv[names[i]]| && LineAt(env, names, csv, i, l).None?
  }

  predicate Accepts(env: Environment, names: seq<string>, csv: map<string, seq<string>>, p: Position)
    requires Present(names, csv)
  {
    && p.file < |names| && p.line < |csv[names[p.file]]|
    && LineAt(env, names, csv, p.file, p.line).Some? && LineAt(env, names, csv, p.file, p.line).value != []
  }

  function Found(env: Environment, names: seq<string>, csv: map<string, seq<string>>, i: nat, l: nat): seq<Detection>
    requires Present(names, csv) && i < |names| && l < |csv[names[i]]|
  {
    var own := LineAt(env, names, csv, i, l);
    if own.Some? then own.value else []
  }

  function LinesFound(env: Environment, names: seq<string>, csv: map<string, seq<string>>, i: nat, n: nat): seq<seq<Detection>>
    requires Present(names, csv) && i < |names| && n <= |csv[names[i]]|
  {
    seq(n, l requires 0 <= l < n => Found(env, names, csv, i, l))
  }

  /** What all the lines of file `i` contribute, line by line. */
  function FoundInFile(env: Environment, names: seq<string>, csv: map<string, seq<string>>, i: nat): seq<Detection>
    requires Present(names, csv) && i < |names|
  {
    Flatten(LinesFound(env, names, csv, i, |csv[names[i]]|))
  }

  function FilesFound(env: Environment, names: seq<string>, csv: map<string, seq<string>>, n: nat): seq<seq<Detection>>
    requires Present(names, csv) && n <= |names|
  {
    seq(n, i requires 0 <= i < n => FoundInFile(env, names, csv, i))
  }

  /** What all the lines of all the files contribute. */
  function FoundInAll(env: Environment, names: seq<string>, csv: map<string, seq<string>>): seq<Detection>
    requires Present(names, csv)
  {
    Flatten(FilesFound(env, names, csv, |names|))
  }

  lemma LinesFoundSnoc(env: Environment, names: seq<string>, csv: map<string, seq<string>>, i: nat, n: nat)
    requires Present(names, csv) && i < |names| && n < |csv[names[i]]|
    ensures LinesFound(env, names, csv, i, n + 1) == LinesFound(env, names, csv, i, n) + [Found(env, names, csv, i, n)]
    ensures Flatten(LinesFound(env, names, csv, i, n + 1))
         == Flatten(LinesFound(env, names, csv, i, n)) + Found(env, names, csv, i, n)
  {
    hide Found, Flatten;
    FlattenSnoc(LinesFound(env, names, csv, i, n), Found(env, names, csv, i, n));
  }

  lemma FilesFoundSnoc(env: Environment, names: seq<string>, csv: map<string, seq<string>>, n: nat)
    requires Present(names, csv) && n < |names|
    ensures FilesFound(env, names, csv, n + 1) == FilesFound(env, names, csv, n) + [FoundInFile(env, names, csv, n)]
    ensures Flatten(FilesFound(env, names, csv, n + 1))
         == Flatten(FilesFound(env, names, csv, n)) + FoundInFile(env, names, csv, n)
  {
    hide FoundInFile, Flatten;
    FlattenSnoc(FilesFound(env, names, csv, n), FoundInFile(env, names, csv, n));
  }

  lemma NothingFlat(env: Environment, names: seq<string>, csv: map<string, seq<string>>, i: nat)
    requires Present(names, csv) && i <= |names|
    ensures i < |names| ==> Flatten(LinesFound(env, names, csv, i, 0)) == []
    ensures Flatten(FilesFound(env, names, csv, 0)) == []
  {
  }

  // ---------- one file ----------

  lemma {:induction false} LinesOfFile(env: Environment, names: seq<string>, csv: map<string, seq<string>>, i: nat, n: nat)
    requires Present(names, csv) && i < |names| && n <= |csv[names[i]]|
    ensures var r := FileDetections(env, i + 1, StampOf(env, names[i]), csv[names[i]][..n]);
            && (r.None? <==> exists l: nat :: l < n && Throws(env, names, csv, i, l))
            && (r.Some? ==> r.value == Flatten(LinesFound(env, names, csv, i, n)))
  {
    hide LineDetections, StampOf, WellNamed, LinesFound;
    var lines := csv[names[i]];
    NothingFlat(env, names, csv, i);
    if n > 0 {
      LinesOfFile(env, names, csv, i, n - 1);
      FileSnoc(env, i + 1, StampOf(env, names[i]), lines, n - 1);
      LinesFoundSnoc(env, names, csv, i, n - 1);
      if Throws(env, names, csv, i, n - 1) {
        assert n - 1 < n;
      }
    }
  }

  // ---------- all files ----------

  ghost predicate SomeThrows(env: Environment, names: seq<string>, csv: map<string, seq<string>>, n: nat)
    requires Present(names, csv)
  {
    exists i: nat, l: nat :: i < n && Throws(env, names, csv, i, l)
  }

  lemma BatchSnoc(env: Environment, names: seq<string>, csv: map<string, seq<string>>, n: nat)
    requires Present(names, csv) && n < |names|
    ensures var before := BatchDetections(env, names[..n], csv);
            var own := FileDetections(env, n + 1, StampOf(env, names[n]), csv[names[n]]);
            BatchDetections(env, names[..n + 1], csv)
              == if before.Some? && own.Some? then Some(before.value + own.value) else None
  {
    hide FileDetections, StampOf, WellNamed;
    Prefix(names, n);
  }

  lemma {:induction false} FilesOfBatch(env: Environment, names: seq<string>, csv: map<string, seq<string>>, n: nat)
    requires Present(names, csv) && n <= |names|
    ensures var r := BatchDetections(env, names[..n], csv);
            && (r.None? <==> SomeThrows(env, names, csv, n))
            && (r.Some? ==> r.value == Flatten(FilesFound(env, names, csv, n)))
  {
    hide FileDetections, StampOf, WellNamed, Throws, FoundInFile, FilesFound;
    NothingFlat(env, names, csv, n);
    if n == 0 {
      assert names[..0] == [];
    } else {
      FilesOfBatch(env, names, csv, n - 1);
      BatchSnoc(env, names, csv, n - 1);
      FileOfBatch(env, names, csv, n - 1);
      FilesFoundSnoc(env, names, csv, n - 1);
      ThrowsSnoc(env, names, csv, n - 1);
    }
  }

  lemma FileOfBatch(env: Environment, names: seq<string>, csv: map<string, seq<string>>, i: nat)
    requires Present(names, csv) && i < |names|
    ensures var r := FileDetections(env, i + 1, StampOf(env, names[i]), csv[names[i]]);
            && (r.None? <==> exists l: nat :: Throws(env, names, csv, i, l))
            && (r.Some? ==> r.value == FoundInFile(env, names, csv, i))
  {
    hide FileDetections, StampOf, WellNamed;
    var lines := csv[names[i]];
    LinesOfFile(env, names, csv, i, |lines|);
    Whole(lines);
    if exists l: nat :: Throws(env, names, csv, i, l) {
      var l: nat :| Throws(env, names, csv, i, l);
      assert l < |lines|;
    }
  }

  lemma ThrowsSnoc(env: Environment, names: seq<string>, csv: map<string, seq<string>>, n: nat)
    requires Present(names, csv)
    ensures SomeThrows(env, names, csv, n + 1) <==>
            SomeThrows(env, names, csv, n) || exists l: nat :: Throws(env, names, csv, n, l)
  {
    hide Throws;
    if SomeThrows(env, names, csv, n) {
      var i: nat, l: nat :| i < n && Throws(env, names, csv, i, l);
      assert i < n + 1 && Throws(env, names, csv, i, l);
    }
    if exists l: nat :: Throws(env, names, csv, n, l) {
      var l: nat :| Throws(env, names, csv, n, l);
      assert n < n + 1 && Throws(env, names, csv, n, l);
    }
    if SomeThrows(env, names, csv, n + 1) {
      var i: nat, l: nat :| i < n + 1 && Throws(env, names, csv, i, l);
      assert i < n || i == n;
    }
  }

  // ---------- counting ----------

  /** The positions of accepted lines. */
  function PositionsIn(env: Environment, names: seq<string>, csv: map<string, seq<string>>, i: nat, n: nat): set<Position>
    requires Present(names, csv) && i < |names| && n <= |csv[names[i]]|
  {
    if n == 0 then {}
    else PositionsIn(env, names, csv, i, n - 1) + (if Found(env, names, csv, i, n - 1) != [] then {Position(i, n - 1)} else {})
  }

  lemma {:induction false} PositionsInAre(env: Environment, names: seq<string>, csv: map<string, seq<string>>,
                                          i: nat, n: nat, p: Position)
    requires Present(names, csv) && i < |names| && n <= |csv[names[i]]|
    ensures p in PositionsIn(env, names, csv, i, n) <==> p.file == i && p.line < n && Accepts(env, names, csv, p)
  {
    hide LineDetections, StampOf, WellNamed;
    if n > 0 {
      PositionsInAre(env, names, csv, i, n - 1, p);
    }
  }

  lemma {:induction false} FileCount(env: Environment, names: seq<string>, csv: map<string, seq<string>>, i: nat, n: nat)
    requires Present(names, csv) && i < |names| && n <= |csv[names[i]]|
    ensures |Flatten(LinesFound(env, names, csv, i, n))| == |PositionsIn(env, names, csv, i, n)|
  {
    hide Found, Flatten, LinesFound, Accepts, WellNamed;
    NothingFlat(env, names, csv, i);
    if n > 0 {
      FileCount(env, names, csv, i, n - 1);
      LinesFoundSnoc(env, names, csv, i, n - 1);
      FoundAtMostOne(env, names, csv, i, n - 1);
      PositionsInAre(env, names, csv, i, n - 1, Position(i, n - 1));
    }
  }

  lemma FoundAtMostOne(env: Environment, names: seq<string>, csv: map<string, seq<string>>, i: nat, l: nat)
    requires Present(names, csv) && i < |names| && l < |csv[names[i]]|
    ensures |Found(env, names, csv, i, l)| <= 1
  {
    hide LineDetections, StampOf, WellNamed;
    AtMostOne(env, i + 1, StampOf(env, names[i]), csv[names[i]][l]);
  }

  lemma AtMostOne(env: Environment, fileNum: int, stamp: Stamp, line: string)
    ensures var own := LineDetections(env, fileNum, stamp, line); own.Some? ==> |own.value| <= 1
  {
    hide ParseLine;
  }

  function Positions(env: Environment, names: seq<string>, csv: map<string, seq<string>>, n: nat): set<Position>
    requires Present(names, csv) && n <= |names|
  {
    if n == 0 then {} else Positions(env, names, csv, n - 1) + PositionsIn(env, names, csv, n - 1, |csv[names[n - 1]]|)
  }

  lemma {:induction false} PositionsAre(env: Environment, names: seq<string>, csv: map<string, seq<string>>, n: nat, p: Position)
    requires Present(names, csv) && n <= |names|
    ensures p in Positions(env, names, csv, n) <==> p.file < n && Accepts(env, names, csv, p)
  {
    hide PositionsIn, LineDetections, StampOf, WellNamed;
    if n > 0 {
      PositionsAre(env, names, csv, n - 1, p);
      PositionsInAre(env, names, csv, n - 1, |csv[names[n - 1]]|, p);
    }
  }

  lemma {:induction false} BatchCount(env: Environment, names: seq<string>, csv: map<string, seq<string>>, n: nat)
    requires Present(names, csv) && n <= |names|
    ensures |Flatten(FilesFound(env, names, csv, n))| == |Positions(env, names, csv, n)|
  {
    hide PositionsIn, Accepts, FoundInFile, FilesFound, Flatten, WellNamed;
    NothingFlat(env, names, csv, n);
    if n > 0 {
      BatchCount(env, names, csv, n - 1);
      FoundCount(env, names, csv, n - 1);
      FilesFoundSnoc(env, names, csv, n - 1);
      OtherFile(env, names, csv, n - 1);
    }
  }

  lemma FoundCount(env: Environment, names: seq<string>, csv: map<string, seq<string>>, i: nat)
    requires Present(names, csv) && i < |names|
    ensures |FoundInFile(env, names, csv, i)| == |PositionsIn(env, names, csv, i, |csv[names[i]]|)|
  {
    hide PositionsIn, Flatten, LinesFound, WellNamed;
    FileCount(env, names, csv, i, |csv[names[i]]|);
  }

  lemma OtherFile(env: Environment, names: seq<string>, csv: map<string, seq<string>>, n: nat)
    requires Present(names, csv) && n < |names|
    ensures var a, b := Positions(env, names, csv, n), PositionsIn(env, names, csv, n, |csv[names[n]]|);
            |a + b| == |a| + |b|
  {
    hide PositionsIn, Positions, Accepts, WellNamed;
    var a, b := Positions(env, names, csv, n), PositionsIn(env, names, csv, n, |csv[names[n]]|);
    forall p | p in a
      ensures p !in b
    {
      PositionsAre(env, names, csv, n, p);
      PositionsInAre(env, names, csv, n, |csv[names[n]]|, p);
    }
    assert a !! b;
  }

  // ---------- the law ----------

  /**
   * A batch throws exactly when some line of some file of it throws. Otherwise its
   * detections are what all the lines of all its files contribute, file by file and line
   * by line, and there are as many as there are accepted lines.
   */
  lemma EveryLineRead(env: Environment, names: seq<string>, csv: map<string, seq<string>>)
    requires Present(names, csv)
    ensures BatchDetections(env, names, csv).None? <==> exists i: nat, l: nat :: Throws(env, names, csv, i, l)
    ensures BatchDetections(env, names, csv).Some? ==>
              BatchDetections(env, names, csv).value == FoundInAll(env, names, csv)
    ensures |FoundInAll(env, names, csv)| == |Positions(env, names, csv, |names|)|
    ensures forall p :: p in Positions(env, names, csv, |names|) <==> Accepts(env, names, csv, p)
  {
    hide BatchDetections, FilesFound, Positions, Flatten;
    FilesOfBatch(env, names, csv, |names|);
    BatchCount(env, names, csv, |names|);
    forall p
      ensures p in Positions(env, names, csv, |names|) <==> Accepts(env, names, csv, p)
    {
      PositionsAre(env, names, csv, |names|, p);
    }
    Whole(names);
    assert (exists i: nat, l: nat :: Throws(env, names, csv, i, l)) ==> SomeThrows(env, names, csv, |names|);
  }
}
