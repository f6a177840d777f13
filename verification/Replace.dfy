/** Substring replacement and the spelling of infinities (DBAccess.cpp). */
module Replace {
  import opened Wrappers

  /** `sub` occurs in `s` starting at `i`. */
  predicate OccursAt(s: string, sub: string, i: nat) {
    i + |sub| <= |s| && s[i..i + |sub|] == sub
  }

  predicate Contains(s: string, sub: string) {
    exists i: nat :: i <= |s| && OccursAt(s, sub, i)
  }

  /** `std::string::find`: the first occurrence at or after `pos`. */
  function Find(s: string, sub: string, pos: nat): (r: Option<nat>)
    requires pos <= |s|
    ensures r.Some? ==> pos <= r.value <= |s| && OccursAt(s, sub, r.value)
    ensures r.Some? ==> forall i :: pos <= i < r.value ==> !OccursAt(s, sub, i)
    ensures r.None? ==> forall i :: pos <= i <= |s| ==> !OccursAt(s, sub, i)
    decreases |s| - pos
  {
    if OccursAt(s, sub, pos) then Some(pos)
    else if pos == |s| then None
    else Find(s, sub, pos + 1)
  }

  /** Leftmost non-overlapping substitution: match at the front or copy one character. */
  function Substituted(s: string, from: string, to: string): string
    requires from != []
    decreases |s|
  {
    if s == [] then []
    else if OccursAt(s, from, 0) then to + Substituted(s[|from|..], from, to)
    else [s[0]] + Substituted(s[1..], from, to)
  }

  lemma OccursInSuffix(s: string, sub: string, pos: nat, i: nat)
    requires pos <= |s|
    ensures OccursAt(s[pos..], sub, i) <==> OccursAt(s, sub, pos + i)
  {
    if pos + i + |sub| <= |s| {
      assert s[pos..][i..i + |sub|] == s[pos + i..pos + i + |sub|];
    }
  }

  /** A first part in which nothing starts to match is copied. */
  lemma {:induction false} SubstitutedSkip(a: string, u: string, from: string, to: string)
    requires from != []
    requires forall i: nat :: i < |a| ==> !OccursAt(a + u, from, i)
    ensures Substituted(a + u, from, to) == a + Substituted(u, from, to)
  {
    if a == [] {
      assert a + u == u;
    } else {
      var s := a + u;
      assert s[1..] == a[1..] + u;
      forall i: nat | i < |a[1..]|
        ensures !OccursAt(a[1..] + u, from, i)
      {
        OccursInSuffix(s, from, 1, i);
      }
      SubstitutedSkip(a[1..], u, from, to);
      assert !OccursAt(s, from, 0);
      Regroup([a[0]], a[1..], Substituted(u, from, to));
      assert [a[0]] + a[1..] == a;
    }
  }

  lemma Regroup(a: string, b: string, c: string)
    ensures a + (b + c) == (a + b) + c
  {
  }

  /** Up to and including the next occurrence. */
  lemma {:induction false} SubstitutedNext(s: string, from: string, to: string, pos: nat, at: nat)
    requires from != [] && pos <= at <= |s| && OccursAt(s, from, at)
    requires forall i :: pos <= i < at ==> !OccursAt(s, from, i)
    ensures Substituted(s[pos..], from, to) == s[pos..at] + (to + Substituted(s[at + |from|..], from, to))
  {
    var a, u := s[pos..at], s[at..];
    assert s[pos..] == a + u;
    forall i: nat | i < |a|
      ensures !OccursAt(a + u, from, i)
    {
      OccursInSuffix(s, from, pos, i);
    }
    SubstitutedSkip(a, u, from, to);
    OccursInSuffix(s, from, at, 0);
    assert u[|from|..] == s[at + |from|..];
  }

  /** Substituting at the first occurrence behind `pos` and going on behind it. */
  lemma SubstitutedStep(s: string, from: string, to: string, pos: nat, at: nat)
    requires from != [] && pos <= at <= at + |from| <= |s| && OccursAt(s, from, at)
    requires forall i :: pos <= i < at ==> !OccursAt(s, from, i)
    ensures var t := s[..at] + to + s[at + |from|..];
            t[..at + |to|] + Substituted(t[at + |to|..], from, to) == s[..pos] + Substituted(s[pos..], from, to)
  {
    hide Substituted, OccursAt;
    var head, rest := s[..at], s[at + |from|..];
    SubstitutedNext(s, from, to, pos, at);
    Regroup(s[..pos], s[pos..at], to + Substituted(rest, from, to));
    assert s[..pos] + s[pos..at] == head;
    Regroup(head, to, Substituted(rest, from, to));
    CutBehind(head, to, rest);
  }

  lemma CutBehind(a: string, b: string, c: string)
    ensures (a + b + c)[..|a| + |b|] == a + b && (a + b + c)[|a| + |b|..] == c
  {
  }

  lemma {:induction false} SubstitutedAbsent(s: string, from: string, to: string)
    requires from != [] && !Contains(s, from)
    ensures Substituted(s, from, to) == s
  {
    assert s + [] == s;
    SubstitutedSkip(s, [], from, to);
  }

  /** The in-place loop: what lies left of `pos` is final, what lies right of it is untouched. */
  method ReplaceAll(original: string, from: string, to: string) returns (s: string)
    requires from != []
    ensures s == Substituted(original, from, to)
  {
    s := original;
    var pos: nat := 0;
    var found := Find(s, from, pos);
    while found.Some?
      invariant pos <= |s| && found == Find(s, from, pos)
      invariant s[..pos] + Substituted(s[pos..], from, to) == Substituted(original, from, to)
      decreases |s| - pos
    {
      var at := found.value;
      SubstitutedStep(s, from, to, pos, at);
      s := s[..at] + to + s[at + |from|..];
      pos := at + |to|;
      found := Find(s, from, pos);
    }
    forall i: nat | i <= |s[pos..]|
      ensures !OccursAt(s[pos..], from, i)
    {
      OccursInSuffix(s, from, pos, i);
    }
    SubstitutedAbsent(s[pos..], from, to);
    assert s[..pos] + s[pos..] == s;
  }

  // ---------- substitution, without its loop ----------

  /** The pieces joined by a separator. */
  function Glue(pieces: seq<string>, sep: string): string
    requires pieces != []
  {
    if |pieces| == 1 then pieces[0] else pieces[0] + (sep + Glue(pieces[1..], sep))
  }

  /**
   * `pieces` is what `from` cuts its text into when it is looked for from left to
   * right: it does not occur in the last piece, and in front of every other piece's
   * end it does not occur any earlier.
   */
  predicate LeftmostCut(pieces: seq<string>, from: string)
    requires pieces != []
  {
    var p := pieces[0];
    if |pieces| == 1 then !Contains(p, from)
    else
      (forall i: nat :: i < |p| ==> !OccursAt(Glue(pieces, from), from, i))
      && LeftmostCut(pieces[1..], from)
  }

  lemma Between(p: string, sep: string, rest: string)
    ensures var s := p + (sep + rest);
            OccursAt(s, sep, |p|) && s[0..] == s && s[0..|p|] == p && s[|p| + |sep|..] == rest
  {
    assert (p + (sep + rest))[|p|..|p| + |sep|] == sep;
  }

  /** Substitution puts `to` exactly where the leftmost cut found `from`. */
  lemma {:induction false} SubstitutedPieces(pieces: seq<string>, from: string, to: string)
    requires from != [] && pieces != [] && LeftmostCut(pieces, from)
    ensures Substituted(Glue(pieces, from), from, to) == Glue(pieces, to)
  {
    hide OccursAt, Substituted;
    var s, p := Glue(pieces, from), pieces[0];
    if |pieces| == 1 {
      SubstitutedAbsent(s, from, to);
    } else {
      var rest := Glue(pieces[1..], from);
      Between(p, from, rest);
      SubstitutedNext(s, from, to, 0, |p|);
      SubstitutedPieces(pieces[1..], from, to);
    }
  }

  /** Every text has such a cut, so the previous lemma covers every input. */
  lemma {:induction false} LeftmostCutExists(s: string, from: string) returns (pieces: seq<string>)
    requires from != []
    ensures pieces != [] && LeftmostCut(pieces, from) && Glue(pieces, from) == s
    decreases |s|
  {
    match Find(s, from, 0)
    case None =>
      pieces := [s];
    case Some(i) =>
      var more := LeftmostCutExists(s[i + |from|..], from);
      pieces := [s[..i]] + more;
      assert pieces[1..] == more;
      assert s == s[..i] + (from + s[i + |from|..]);
  }

  // ---------- the spelling of infinities ----------

  const INF := "inf"
  const MINUS_INF := "-inf"
  const QUOTED_INF := "'Infinity'"
  const QUOTED_MINUS_INF := "'-Infinity'"

  /** The two chained replacements every rotation value goes through. */
  function Quoted(s: string): string {
    Substituted(Substituted(s, MINUS_INF, QUOTED_MINUS_INF), INF, QUOTED_INF)
  }

  method QuoteInfinity(number: string) returns (s: string)
    ensures s == Quoted(number)
  {
    s := ReplaceAll(number, MINUS_INF, QUOTED_MINUS_INF);
    s := ReplaceAll(s, INF, QUOTED_INF);
  }

  /** The reference: one pass from left to right, the longer spelling first. */
  function Spelled(s: string): string {
    if s == [] then []
    else if OccursAt(s, MINUS_INF, 0) then QUOTED_MINUS_INF + Spelled(s[4..])
    else if OccursAt(s, INF, 0) then QUOTED_INF + Spelled(s[3..])
    else [s[0]] + Spelled(s[1..])
  }

  lemma InfAt(s: string, i: nat)
    ensures OccursAt(s, INF, i) <==> i + 3 <= |s| && s[i] == 'i' && s[i + 1] == 'n' && s[i + 2] == 'f'
  {
    if i + 3 <= |s| {
      var w := s[i..i + 3];
      assert w[0] == s[i] && w[1] == s[i + 1] && w[2] == s[i + 2];
    }
  }

  /** No "inf" begins inside either literal, whatever follows it. */
  lemma LiteralsHideInf(u: string, i: nat)
    ensures i < |QUOTED_INF| ==> !OccursAt(QUOTED_INF + u, INF, i)
    ensures i < |QUOTED_MINUS_INF| ==> !OccursAt(QUOTED_MINUS_INF + u, INF, i)
  {
    InfAt(QUOTED_INF + u, i);
    InfAt(QUOTED_MINUS_INF + u, i);
  }

  /** The first replacement neither makes nor destroys an "inf" at the front. */
  lemma {:induction false} FrontInf(s: string)
    requires !OccursAt(s, MINUS_INF, 0)
    ensures var a := Substituted(s, MINUS_INF, QUOTED_MINUS_INF);
            && OccursAt(a, INF, 0) == OccursAt(s, INF, 0)
            && (OccursAt(s, INF, 0) ==> a[3..] == Substituted(s[3..], MINUS_INF, QUOTED_MINUS_INF))
  {
    InfAt(s, 0);
    var f, t := MINUS_INF, QUOTED_MINUS_INF;
    var a := Substituted(s, f, t);
    InfAt(a, 0);
    if |s| >= 3 {
      var b, c := s[1..], s[2..];
      assert b[1..] == c && c[1..] == s[3..];
      assert a == [s[0]] + Substituted(b, f, t);
      assert OccursAt(b, f, 0) || Substituted(b, f, t) == [b[0]] + Substituted(c, f, t);
      assert OccursAt(c, f, 0) || Substituted(c, f, t) == [c[0]] + Substituted(s[3..], f, t);
    } else if |s| == 2 {
      var b := s[1..];
      assert b[1..] == [] && !OccursAt(b, f, 0);
      assert Substituted(b, f, t) == [b[0]] + [];
    }
  }

  /** The two chained replacements amount to the single pass, on every text. */
  lemma {:induction false} QuotedIsSpelled(s: string)
    ensures Quoted(s) == Spelled(s)
    decreases |s|
  {
    var f, t := MINUS_INF, QUOTED_MINUS_INF;
    if s != [] {
      if OccursAt(s, f, 0) {
        var u := Substituted(s[4..], f, t);
        forall i: nat | i < |t| ensures !OccursAt(t + u, INF, i) { LiteralsHideInf(u, i); }
        SubstitutedSkip(t, u, INF, QUOTED_INF);
        QuotedIsSpelled(s[4..]);
      } else {
        FrontInf(s);
        if OccursAt(s, INF, 0) {
          QuotedIsSpelled(s[3..]);
        } else {
          QuotedIsSpelled(s[1..]);
          var u := Substituted(s[1..], f, t);
          assert ([s[0]] + u)[1..] == u;
        }
      }
    }
  }

  /** What lies behind a part in which no "inf" begins. */
  lemma InfBehind(a: string, u: string)
    requires forall i: nat :: i < |a| ==> !OccursAt(a + u, INF, i)
    requires !Contains(u, INF)
    ensures !Contains(a + u, INF)
  {
    forall i: nat | |a| <= i <= |a + u|
      ensures !OccursAt(a + u, INF, i)
    {
      OccursInSuffix(a + u, INF, |a|, i - |a|);
      assert (a + u)[|a|..] == u;
    }
  }

  /** After the chain no "inf" is left in any text. */
  lemma {:induction false} QuotedHasNoInf(s: string)
    ensures !Contains(Quoted(s), INF)
    decreases |s|
  {
    QuotedIsSpelled(s);
    if s == [] {
    } else if OccursAt(s, MINUS_INF, 0) || OccursAt(s, INF, 0) {
      var minus := OccursAt(s, MINUS_INF, 0);
      var rest := if minus then s[4..] else s[3..];
      var a, u := if minus then QUOTED_MINUS_INF else QUOTED_INF, Spelled(rest);
      QuotedHasNoInf(rest);
      QuotedIsSpelled(rest);
      forall i: nat | i < |a| ensures !OccursAt(a + u, INF, i) { LiteralsHideInf(u, i); }
      InfBehind(a, u);
    } else {
      QuotedHasNoInf(s[1..]);
      QuotedIsSpelled(s[1..]);
      SpelledFront(s);
      InfBehind([s[0]], Spelled(s[1..]));
    }
  }

  lemma {:induction false} SpelledFront(s: string)
    requires s != [] && !OccursAt(s, MINUS_INF, 0) && !OccursAt(s, INF, 0)
    ensures !OccursAt([s[0]] + Spelled(s[1..]), INF, 0)
  {
    InfAt(s, 0);
    var a := [s[0]] + Spelled(s[1..]);
    InfAt(a, 0);
    if |s| >= 3 {
      var b, c := s[1..], s[2..];
      assert b[1..] == c;
      InfAt(b, 0);
      InfAt(c, 0);
      assert OccursAt(b, MINUS_INF, 0) || OccursAt(b, INF, 0) || Spelled(b) == [b[0]] + Spelled(c);
      assert OccursAt(c, MINUS_INF, 0) || OccursAt(c, INF, 0) || Spelled(c) == [c[0]] + Spelled(c[1..]);
    } else if |s| == 2 {
      assert s[1..][1..] == [];
    }
  }

  lemma MinusInfHasInf(s: string, i: nat)
    ensures OccursAt(s, MINUS_INF, i) ==> OccursAt(s, INF, i + 1)
  {
    if i + 4 <= |s| {
      assert s[i + 1..i + 4] == s[i..i + 4][1..];
    }
  }

  /** The chain leaves alone exactly the texts without "inf". */
  lemma QuotedFixes(s: string)
    ensures Quoted(s) == s <==> !Contains(s, INF)
  {
    if Contains(s, INF) {
      QuotedHasNoInf(s);
    } else {
      forall i: nat | i <= |s|
        ensures !OccursAt(s, MINUS_INF, i)
      {
        MinusInfHasInf(s, i);
      }
      SubstitutedAbsent(s, MINUS_INF, QUOTED_MINUS_INF);
      SubstitutedAbsent(s, INF, QUOTED_INF);
    }
  }

  /** The two infinities become the literals PostgreSQL reads, sign included. */
  lemma QuotedInfinities()
    ensures Quoted(INF) == QUOTED_INF
    ensures Quoted(MINUS_INF) == QUOTED_MINUS_INF
  {
    QuotedIsSpelled(INF);
    QuotedIsSpelled(MINUS_INF);
    assert !OccursAt(INF, MINUS_INF, 0) && OccursAt(INF, INF, 0) && OccursAt(MINUS_INF, MINUS_INF, 0);
    assert INF[3..] == [] && MINUS_INF[4..] == [];
  }
}
