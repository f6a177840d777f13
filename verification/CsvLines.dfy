/** What the text of a csv line says, column by column. */
module CsvLines {
  import opened Wrappers
  import opened Decimal
  import opened Delimited
  import opened Binary
  import opened Packing
  import opened Decoder

  /** A line as the decoder of the pictures writes it; `more` are further columns. */
  function LineText(tag: int, cand: int, grid: int, x: int, y: int, rx: string, ry: string, rz: string, score: int,
                    code: string, more: seq<string>): string {
    Join(Columns(tag, cand, grid, x, y, rx, ry, rz, score, code) + more, ',')
  }

  function Columns(tag: int, cand: int, grid: int, x: int, y: int, rx: string, ry: string, rz: string, score: int,
                   code: string): seq<string> {
    [IntText(tag), IntText(cand), IntText(grid), IntText(x), IntText(y), rx, ry, rz, IntText(score), code]
  }

  predicate ShortRange(n: int) {
    -0x8000 <= n <= 0x7fff
  }

  lemma {:induction false} NatTextNoComma(n: nat)
    ensures ',' !in NatText(n)
  {
    if n >= 10 {
      NatTextNoComma(n / 10);
    }
  }

  lemma NoComma(n: int)
    ensures ',' !in IntText(n)
  {
    NatTextNoComma(if n < 0 then -n else n);
  }

  predicate Fields(ts: seq<string>) {
    DelimiterFree(ts, ',') && (ts == [] || ts[|ts| - 1] != [])
  }

  lemma LineTokens(tag: int, cand: int, grid: int, x: int, y: int, rx: string, ry: string, rz: string, score: int,
                   code: string, more: seq<string>)
    requires ',' !in rx && ',' !in ry && ',' !in rz && ',' !in code && code != [] && Fields(more)
    ensures Tokens(LineText(tag, cand, grid, x, y, rx, ry, rz, score, code, more), ',')
         == Columns(tag, cand, grid, x, y, rx, ry, rz, score, code) + more
  {
    hide IntText, Tokens, Join;
    NoComma(tag);
    NoComma(cand);
    NoComma(grid);
    NoComma(x);
    NoComma(y);
    NoComma(score);
    TokensOfJoin(Columns(tag, cand, grid, x, y, rx, ry, rz, score, code) + more, ',');
  }

  /**
   * Reading a line back. With numbers in the range of `short`, coordinates that are not
   * negative, readable rotations and a code of up to 16 bits, the line is accepted and
   * every column arrives in its own field; the two ids are packed from these columns.
   */
  lemma LineReadBack(env: Environment, fileNum: int, stamp: Stamp,
                     tag: int, cand: int, grid: int, x: int, y: int, rx: string, ry: string, rz: string, score: int,
                     code: string, more: seq<string>)
    requires ShortRange(tag) && ShortRange(cand) && ShortRange(grid) && ShortRange(score)
    requires 0 <= x <= 0x7fff && 0 <= y <= 0x7fff
    requires ',' !in rx && ',' !in ry && ',' !in rz && Fields(more)
    requires env.stod(rx).Some? && env.stod(ry).Some? && env.stod(rz).Some?
    requires Bits(code) && 0 < |code| <= 16
    ensures ParseLine(env, fileNum, stamp, LineText(tag, cand, grid, x, y, rx, ry, rz, score, code, more))
         == Accepted(Detection(
              fileNum, tag, cand, grid, RecordId(stamp.centisecs, x, y, stamp.camID, tag), stamp,
              Candidate(CandidateId(tag, cand, grid), x, y, env.stod(rx).value, env.stod(ry).value, env.stod(rz).value,
                        score, Base2(code))))
  {
    hide IntText, Tokens, LineText, Stoi, RecordId, CandidateId, BeeId, Base2, Significant, ParseLine, Bits, ReadColumns;
    CodeNoComma(code);
    SameColumns(Columns(tag, cand, grid, x, y, rx, ry, rz, score, code), more);
    LineTokens(tag, cand, grid, x, y, rx, ry, rz, score, code, more);
    ColumnsRead(tag, cand, grid, x, y, rx, ry, rz, score, code, more);
    ShortCode(code);
    BeeIdOfBits(code);
    ReadFields(env, fileNum, stamp, LineText(tag, cand, grid, x, y, rx, ry, rz, score, code, more),
               Columns(tag, cand, grid, x, y, rx, ry, rz, score, code) + more, tag, cand, grid, x, y, score);
  }

  lemma CodeNoComma(code: string)
    requires Bits(code)
    ensures ',' !in code
  {
  }

  lemma SameColumns(first: seq<string>, more: seq<string>)
    requires |first| == 10
    ensures forall k :: 0 <= k < 10 ==> (first + more)[k] == first[k]
  {
  }

  /** The six columns that hold numbers. */
  predicate ReadColumns(ts: seq<string>, tag: int, cand: int, grid: int, x: int, y: int, score: int)
    requires |ts| >= 10
  {
    && Stoi(ts[0]) == Some(tag) && Stoi(ts[1]) == Some(cand) && Stoi(ts[2]) == Some(grid)
    && Stoi(ts[3]) == Some(x) && Stoi(ts[4]) == Some(y) && Stoi(ts[8]) == Some(score)
  }

  lemma ColumnsRead(tag: int, cand: int, grid: int, x: int, y: int, rx: string, ry: string, rz: string, score: int,
                    code: string, more: seq<string>)
    requires ShortRange(tag) && ShortRange(cand) && ShortRange(grid) && ShortRange(score) && ShortRange(x) && ShortRange(y)
    ensures ReadColumns(Columns(tag, cand, grid, x, y, rx, ry, rz, score, code) + more, tag, cand, grid, x, y, score)
  {
    hide IntText, Stoi;
    StoiOfText(tag);
    StoiOfText(cand);
    StoiOfText(grid);
    StoiOfText(x);
    StoiOfText(y);
    StoiOfText(score);
  }

  lemma ReadFields(env: Environment, fileNum: int, stamp: Stamp, line: string, ts: seq<string>,
                   tag: int, cand: int, grid: int, x: int, y: int, score: int)
    requires Tokens(line, ',') == ts && |ts| >= 10 && ReadColumns(ts, tag, cand, grid, x, y, score)
    requires ShortRange(tag) && ShortRange(cand) && ShortRange(grid) && ShortRange(score)
    requires 0 <= x <= 0x7fff && 0 <= y <= 0x7fff
    requires env.stod(ts[5]).Some? && env.stod(ts[6]).Some? && env.stod(ts[7]).Some?
    ensures ParseLine(env, fileNum, stamp, line)
         == Accepted(Detection(
              fileNum, tag, cand, grid, RecordId(stamp.centisecs, x, y, stamp.camID, tag), stamp,
              Candidate(CandidateId(tag, cand, grid), x, y, env.stod(ts[5]).value, env.stod(ts[6]).value,
                        env.stod(ts[7]).value, score, BeeId(ts[9]))))
  {
    hide Tokens, Stoi, RecordId, CandidateId, BeeId;
  }

  lemma {:induction false} ShortCode(code: string)
    requires |code| <= 16
    ensures |Significant(code)| <= 16
  {
    SignificantPart(code);
  }

  lemma {:induction false} SignificantPart(code: string)
    ensures |Significant(code)| <= |code|
  {
    if code != [] && code[0] == '0' {
      SignificantPart(code[1..]);
    }
  }

  // ---------- lines that add nothing, lines that throw ----------

  lemma FieldTokens(ts: seq<string>)
    requires Fields(ts)
    ensures Tokens(Join(ts, ','), ',') == ts && (Join(ts, ',') == [] <==> ts == [])
  {
    hide Join;
    TokensOfJoin(ts, ',');
    if ts != [] {
      JoinEnd(ts, ',');
    } else {
      NothingJoined();
    }
  }

  lemma NothingJoined()
    ensures Join([], ',') == []
  {
  }

  /** A coordinate is below zero. */
  predicate Outside(ts: seq<string>)
    requires |ts| >= 10
  {
    && Stoi(ts[3]).Some? && Stoi(ts[4]).Some?
    && (Stoi(ts[3]).value < 0 || Stoi(ts[4]).value < 0)
  }

  /** Every column that is converted can be; the bee code always can. */
  predicate Readable(env: Environment, ts: seq<string>)
    requires |ts| >= 10
  {
    && Stoi(ts[0]).Some? && Stoi(ts[1]).Some? && Stoi(ts[2]).Some? && Stoi(ts[3]).Some? && Stoi(ts[4]).Some?
    && env.stod(ts[5]).Some? && env.stod(ts[6]).Some? && env.stod(ts[7]).Some? && Stoi(ts[8]).Some?
  }

  /** A line adds nothing exactly when it has fewer than ten columns or a negative coordinate. */
  lemma LineAddsNothing(env: Environment, fileNum: int, stamp: Stamp, ts: seq<string>)
    requires Fields(ts)
    ensures LineDetections(env, fileNum, stamp, Join(ts, ',')) == Some([]) <==> |ts| < 10 || Outside(ts)
  {
    hide Join, Tokens, Stoi, RecordId, CandidateId, BeeId, Fields;
    FieldTokens(ts);
  }

  /** It throws exactly when it would be accepted but for a column that cannot be read. */
  lemma LineThrows(env: Environment, fileNum: int, stamp: Stamp, ts: seq<string>)
    requires Fields(ts)
    ensures LineDetections(env, fileNum, stamp, Join(ts, ',')).None? <==>
            |ts| >= 10 && !Outside(ts) && !Readable(env, ts)
  {
    hide Join, Tokens, Stoi, RecordId, CandidateId, BeeId, Fields;
    FieldTokens(ts);
  }
}
