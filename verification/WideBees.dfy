/** A csv file in order whose rows the server cannot take: a bee code whose sixteenth bit is set. */
module WideBees {
  import opened Wrappers
  import opened Decimal
  import opened Delimited
  import opened Powers
  import opened Binary
  import opened Decoder
  import opened Keys
  import opened WorkList
  import opened Columns
  import opened CleanRuns
  import opened Samples

  const WIDE := "1000000000000000"

  lemma WideId()
    ensures BeeId(WIDE) == 0x8000
  {
    hide Base2, BeeId, Bits, WIDE;
    Zeros();
    BeeIdWhole(WIDE);
  }

  lemma {:induction false} ZerosBehind(s: string, k: nat)
    requires Bits(s) && k <= |s| && forall i :: k <= i < |s| ==> s[i] == '0'
    ensures Base2(s) == Base2(s[..k]) * Pow2(|s| - k)
    decreases |s|
  {
    if k == |s| {
      assert s[..k] == s;
    } else {
      var init := s[..|s| - 1];
      ZerosBehind(init, k);
      assert init[..k] == s[..k];
      Doubled(Base2(s[..k]), Pow2(|init| - k));
    }
  }

  lemma Doubled(a: int, b: int)
    ensures a * b * 2 == a * (2 * b)
  {
  }

  lemma Zeros()
    ensures Bits(WIDE) && Base2(WIDE) == 0x8000
  {
    ZerosBehind(WIDE, 1);
    assert WIDE[..1] == "1" && "1"[..0] == "";
    assert Base2("") == 0 && Base2("1") == 1;
    Literals();
  }

  /** Times are those of the file names' digits, rotations are zero. */
  const ENV := Environment(_ => 0, 0, _ => Some(Finite("0.0")))

  /**
   * One file of one line, clean in every respect but the sixteen-bit code: its key is
   * unique, its fields fit their bits, and yet its row does not fit the column.
   */
  lemma CleanButWide() returns (name: string, csv: map<string, seq<string>>)
    ensures name == PictureName("20140805100033") && csv == map[name := [ZeroLine(WIDE)]]
    ensures CleanBatch(ENV, [name], csv)
    ensures !LoadableBatch(ENV, csv, [name])
  {
    hide BeeId, ZeroLine, BatchDetections, Tokens, PictureName, Extension;
    name := PictureName("20140805100033");
    csv := map[name := [ZeroLine(WIDE)]];
    PictureNamed(ENV, "20140805100033");
    WideId();
    assert ',' !in WIDE;
    var d := OneLineDetected(ENV, name, csv, WIDE);
    NameParts(name);
    assert !LineFits([d][0]);
  }

  lemma NameParts(name: string)
    requires name == PictureName("20140805100033") && WellNamed(name)
    ensures StampOf(ENV, name).camID == 0 && StampOf(ENV, name).centisecs == 2
  {
    hide Stoi, PictureName;
    PictureNamed(ENV, "20140805100033");
    assert IntText(2) == "2";
    StoiOfText(2);
  }
}
