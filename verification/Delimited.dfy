/** Delimited text: the line splitter of lib.cpp and its inverses. */
module Delimited {
  import opened Sequences

  /** Position of the first `d`, or the length when there is none. */
  function FirstIndex(s: string, d: char): (i: nat)
    ensures i <= |s|
    ensures d !in s[..i]
    ensures i < |s| ==> s[i] == d
  {
    if s == [] || s[0] == d then 0 else 1 + FirstIndex(s[1..], d)
  }

  /**
   * What repeated `getline` extracts. A call succeeds exactly when at least one
   * character is left, so a delimiter at the very end opens no further token.
   */
  function Tokens(s: string, d: char): (ts: seq<string>) {
    if s == [] then []
    else
      var i := FirstIndex(s, d);
      [s[..i]] + if i < |s| then Tokens(s[i + 1..], d) else []
  }

  /** Every token followed by one delimiter. */
  function Lines(ts: seq<string>, d: char): string {
    if ts == [] then [] else ts[0] + [d] + Lines(ts[1..], d)
  }

  /** Tokens separated by one delimiter. */
  function Join(ts: seq<string>, d: char): string {
    if ts == [] then []
    else if |ts| == 1 then ts[0]
    else ts[0] + [d] + Join(ts[1..], d)
  }

  predicate DelimiterFree(ts: seq<string>, d: char) {
    forall t :: t in ts ==> d !in t
  }

  method Split(line: string, delim: char) returns (tokens: seq<string>)
    ensures tokens == Tokens(line, delim)
  {
    hide Tokens, FirstIndex;
    TokensOfNothing(delim);
    tokens := [];
    var pos := 0;
    while pos < |line|
      invariant 0 <= pos <= |line|
      invariant tokens + Tokens(line[pos..], delim) == Tokens(line, delim)
    {
      var rest := line[pos..];
      var len := FirstIndex(rest, delim);
      TokensNext(rest, delim, tokens);
      tokens := tokens + [rest[..len]];
      pos := if len < |rest| then pos + len + 1 else |line|;
      assert line[pos..] == Behind(rest, len);
    }
    assert line[pos..] == [];
    RightUnit(tokens);
  }

  lemma TokensOfNothing(d: char)
    ensures Tokens([], d) == []
  {
  }

  /** What is left behind the delimiter at `len`. */
  function Behind(s: string, len: nat): string
    requires len <= |s|
  {
    if len < |s| then s[len + 1..] else []
  }

  lemma TokensNext(rest: string, d: char, tokens: seq<string>)
    requires rest != []
    ensures var len := FirstIndex(rest, d);
            (tokens + [rest[..len]]) + Tokens(Behind(rest, len), d) == tokens + Tokens(rest, d)
  {
    var len := FirstIndex(rest, d);
    Associative(tokens, [rest[..len]], Tokens(Behind(rest, len), d));
  }

  lemma {:induction false} TokensDelimiterFree(s: string, d: char)
    ensures DelimiterFree(Tokens(s, d), d)
    decreases |s|
  {
    if s != [] {
      var i := FirstIndex(s, d);
      if i < |s| {
        TokensDelimiterFree(s[i + 1..], d);
      }
    }
  }

  lemma {:induction false} FirstIndexAt(t: string, d: char, rest: string)
    requires d !in t
    ensures FirstIndex(t + [d] + rest, d) == |t|
  {
    if t != [] {
      FirstIndexAt(t[1..], d, rest);
      assert (t + [d] + rest)[1..] == t[1..] + [d] + rest;
    }
  }

  /** Splitting terminated tokens gives them back, whatever they are. */
  lemma {:induction false} TokensOfLines(ts: seq<string>, d: char)
    requires DelimiterFree(ts, d)
    ensures Tokens(Lines(ts, d), d) == ts
  {
    if ts != [] {
      var rest := Lines(ts[1..], d);
      var s := ts[0] + [d] + rest;
      FirstIndexAt(ts[0], d, rest);
      assert s[..|ts[0]|] == ts[0] && s[|ts[0]| + 1..] == rest;
      TokensOfLines(ts[1..], d);
    }
  }

  /** Terminating the tokens again restores the text, adding the delimiter it may lack at the end. */
  lemma {:induction false} LinesOfTokens(s: string, d: char)
    ensures Lines(Tokens(s, d), d) == if s == [] || s[|s| - 1] == d then s else s + [d]
    decreases |s|
  {
    if s != [] {
      var i := FirstIndex(s, d);
      if i < |s| {
        LinesOfTokens(s[i + 1..], d);
        LinesCons(s[..i], Tokens(s[i + 1..], d), d);
        CutAt(s, i, d);
      } else {
        assert s[..i] == s && d !in s;
        LinesCons(s, [], d);
      }
    }
  }

  lemma LinesCons(t: string, ts: seq<string>, d: char)
    ensures Lines([t] + ts, d) == t + [d] + Lines(ts, d)
  {
    assert ([t] + ts)[1..] == ts;
  }

  lemma CutAt(s: string, i: nat, d: char)
    requires i < |s| && s[i] == d
    ensures s[..i] + [d] + s[i + 1..] == s
    ensures s[..i] + [d] + (s[i + 1..] + [d]) == s + [d]
  {
  }

  lemma {:induction false} JoinIsLines(ts: seq<string>, d: char)
    requires ts != []
    ensures Join(ts, d) + [d] == Lines(ts, d)
  {
    if |ts| == 1 {
      assert ts[1..] == [];
    } else {
      JoinIsLines(ts[1..], d);
      assert ts[0] + [d] + Join(ts[1..], d) + [d] == ts[0] + [d] + (Join(ts[1..], d) + [d]);
    }
  }

  /** Joining undoes splitting, except that a final delimiter is lost. */
  lemma JoinOfTokens(s: string, d: char)
    ensures Join(Tokens(s, d), d) == if s != [] && s[|s| - 1] == d then s[..|s| - 1] else s
  {
    if s != [] {
      JoinIsLines(Tokens(s, d), d);
      LinesOfTokens(s, d);
      var j := Join(Tokens(s, d), d);
      assert j == (j + [d])[..|j|];
    }
  }

  lemma {:induction false} JoinEnd(ts: seq<string>, d: char)
    requires ts != [] && ts[|ts| - 1] != []
    ensures Join(ts, d) != []
    ensures var t := ts[|ts| - 1]; Join(ts, d)[|Join(ts, d)| - 1] == t[|t| - 1]
  {
    if |ts| > 1 {
      JoinEnd(ts[1..], d);
    }
  }

  /**
   * Splitting undoes joining exactly when the last token is not empty: an empty
   * last token is dropped by `getline`.
   */
  lemma {:induction false} TokensOfJoin(ts: seq<string>, d: char)
    requires DelimiterFree(ts, d)
    ensures Tokens(Join(ts, d), d) == ts <==> (ts == [] || ts[|ts| - 1] != [])
  {
    if ts != [] {
      var j := Join(ts, d);
      JoinIsLines(ts, d);
      TokensOfLines(ts, d);
      LinesOfTokens(j, d);
      if ts[|ts| - 1] != [] {
        JoinEnd(ts, d);
        assert ts[|ts| - 1] in ts;
        assert j[|j| - 1] != d;
        TokensDelimiterFree(j, d);
        TokensOfLines(Tokens(j, d), d);
      } else if Tokens(j, d) == ts {
        assert Lines(ts, d) == j + [d];
        EmptyLast(ts, d);
        assert false;
      }
    }
  }

  lemma {:induction false} EmptyLast(ts: seq<string>, d: char)
    requires ts != [] && ts[|ts| - 1] == []
    ensures var j := Join(ts, d); j == [] || j[|j| - 1] == d
  {
    if |ts| > 1 {
      EmptyLast(ts[1..], d);
      var j := Join(ts[1..], d);
      if j == [] {
        assert Join(ts, d) == ts[0] + [d];
      }
    }
  }
}
