/** Csv files in small, for the lemmas that show what can go wrong. */
module Samples {
  import opened Wrappers
  import opened Decimal
  import opened Delimited
  import opened Packing
  import opened Binary
  import opened Ordered
  import opened Decoder
  import opened Minutes
  import opened Batch
  import opened WorkList
  import opened Sql
  import opened FileNames

  predicate CsvName(name: string) {
    Extension(name) == "csv" && WellNamed(name)
  }

  /** The name of a picture of camera 0. */
  function PictureName(digits: string): string {
    FileNameOf("Cam", 0, digits, "2")
  }

  lemma PictureNamed(env: Environment, digits: string)
    requires IsTimestamp(digits)
    ensures CsvName(PictureName(digits)) && StampTime(PictureName(digits)) == digits
    ensures StampOf(env, PictureName(digits)) == Stamp(digits, "2", 0, Centisecs(env, digits, "2"))
  {
    hide Extension, Stoi, FileNameOf, TimeOf, IntText;
    assert '_' !in "Cam" && '_' !in digits && '_' !in "2";
    NameTokens("Cam", 0, digits, "2");
    NameReadBack(env, "Cam", 0, digits, "2", 0, 1);
  }

  /** The timestamp in a file name. */
  function StampTime(name: string): string {
    var t := Tokens(name, '_');
    if |t| > 2 then t[2] else []
  }

  /** Nine columns of zeros and a bee code. */
  function ZeroTokens(code: string): seq<string> {
    seq(9, _ => "0") + [code]
  }

  function ZeroLine(code: string): string {
    Join(ZeroTokens(code), ',')
  }

  lemma ZeroLineTokens(code: string)
    requires code != [] && ',' !in code
    ensures Tokens(ZeroLine(code), ',') == ZeroTokens(code) && ZeroLine(code) != []
  {
    hide Join;
    assert ',' !in "0" && DelimiterFree(ZeroTokens(code), ',');
    TokensOfJoin(ZeroTokens(code), ',');
    assert Tokens([], ',') == [];
    assert ZeroLine(code) != [];
  }

  /** Such a line is accepted, and carries the bee id of its code. */
  lemma ZeroLineAccepted(env: Environment, fileNum: int, stamp: Stamp, code: string)
    requires env.stod("0").Some? && code != [] && ',' !in code
    ensures var own := LineDetections(env, fileNum, stamp, ZeroLine(code));
            && own.Some? && |own.value| == 1 && own.value[0].candidate.bee == BeeId(code) && own.value[0].stamp == stamp
            && own.value[0].fileNum == fileNum && own.value[0].tag == 0 && own.value[0].cand == 0 && own.value[0].grid == 0
            && own.value[0].candidate.x == 0 && own.value[0].candidate.y == 0
  {
    hide Stoi, ZeroLine, RecordId, CandidateId, BeeId;
    ZeroLineTokens(code);
    assert IntText(0) == "0";
    StoiOfText(0);
  }

  /** A file of one such line: its single detection. */
  lemma OneLineDetected(env: Environment, name: string, csv: map<string, seq<string>>, code: string) returns (d: Detection)
    requires WellNamed(name) && name in csv && csv[name] == [ZeroLine(code)]
    requires env.stod("0").Some? && code != [] && ',' !in code
    ensures AllWellNamed([name]) && BatchDetections(env, [name], csv) == Some([d])
    ensures d.stamp == StampOf(env, name) && d.candidate.bee == BeeId(code)
    ensures d.tag == 0 && d.cand == 0 && d.grid == 0 && d.candidate.x == 0 && d.candidate.y == 0
  {
    hide WellNamed, StampOf, LineDetections, ZeroLine, BeeId;
    var stamp := StampOf(env, name);
    ZeroLineAccepted(env, 1, stamp, code);
    var own := LineDetections(env, 1, stamp, ZeroLine(code)).value;
    d := own[0];
    assert [csv[name][0]][..0] == [] && FileDetections(env, 1, stamp, []) == Some([]);
    assert FileDetections(env, 1, stamp, csv[name]) == Some([] + own);
    assert [name][..0] == [] && BatchDetections(env, [], csv) == Some([]);
    assert BatchDetections(env, [name], csv) == Some([] + ([] + own));
    assert [] + ([] + own) == own && own == [d];
  }

  /** It is converted to one group, named after the minute of the file. */
  lemma OneLineConverted(env: Environment, name: string, csv: map<string, seq<string>>, code: string)
    requires WellNamed(name) && name in csv && csv[name] == [ZeroLine(code)]
    requires env.stod("0").Some? && code != [] && ',' !in code
    ensures AllWellNamed([name])
    ensures var groups := Convert(env, [name], csv);
            groups.Some? && groups.value.Keys == {Minute(StampTime(name))}
  {
    hide Stoi, Centisecs, Offset, BatchDetections, ZeroLine, Groups, Tokens, Extension, BeeId;
    var d := OneLineDetected(env, name, csv, code);
    OneGroup([d], StampTime(name));
  }

  lemma {:induction false} OneGroup(own: seq<Detection>, timestamp: string)
    requires |own| == 1 && own[0].stamp.timestamp == timestamp
    ensures Groups(Grouped(own)).Keys == {Minute(timestamp)}
  {
    hide Groups, Grouped, Numbered;
    var d := own[0];
    var data := Grouped(own);
    var groups := Groups(data);
    GroupsAreSplit(data);
    OneSelected(own, d.Key());
    GroupedIsGroupBy(own, d.Key());
    assert d.Key() in Group(groups, Minute(timestamp));
    forall t | t in groups
      ensures t == Minute(timestamp)
    {
      var key := Member(groups[t].Keys);
      assert key in groups[t];
      GroupedIsGroupBy(own, key);
      OneSelected(own, key);
    }
  }

  lemma OneSelected(own: seq<Detection>, key: int)
    requires |own| == 1
    ensures Select(own, key) == if own[0].Key() == key then own else []
  {
    assert own[..0] == [] && Select([], key) == [] && [] + own == own;
  }
}
