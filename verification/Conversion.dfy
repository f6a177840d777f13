/** Every csv file is converted once, and every row of it is written once. */
module Conversion {
  import opened Wrappers
  import opened Lists
  import opened Ordered
  import opened Decoder
  import opened Batch
  import opened WorkList
  import opened Pipeline

  // ---------- csv files ----------

  /** The csv files a parser has taken and not yet removed. */
  function Claim(p: Parser): seq<string> {
    match p.pc
    case Idle => []
    case Dead => []
    case Remove(rest) => rest
    case _ => p.batch
  }

  ghost predicate Claimed(s: State, name: string) {
    exists i :: 0 <= i < |s.parsers| && name in Claim(s.parsers[i])
  }

  /** A parser's claim: files that are there, each once, all of its own residue class. */
  ghost predicate ClaimRight(c: Config, s: State, i: nat)
    requires c.procs > 0 && i < |s.parsers|
  {
    var claim := Claim(s.parsers[i]);
    NoDuplicates(claim)
    && forall k :: 0 <= k < |claim| ==> claim[k] in s.csv && Mine(claim[k], i, c.procs)
  }

  ghost predicate CsvRight(c: Config, s: State)
    requires c.procs > 0
  {
    && (forall name :: name in s.csv ==> name in s.hist.arrived && s.csv[name] == s.hist.arrived[name])
    && (forall name :: name in s.hist.arrived ==> (name in s.csv <==> name !in s.hist.consumed))
    && (forall name :: name in s.hist.consumed ==> name in s.hist.arrived)
    && (forall i :: 0 <= i < |s.parsers| ==> ClaimRight(c, s, i))
    && NoDuplicates(Flatten(s.hist.batches))
    && (forall name :: name in Flatten(s.hist.batches) <==> name in s.hist.consumed || Claimed(s, name))
  }

  /** Two parsers never claim the same file. */
  lemma ClaimsApart(c: Config, s: State, i: nat, j: nat, name: string)
    requires c.procs > 0 && CsvRight(c, s) && i < |s.parsers| && j < |s.parsers|
    requires name in Claim(s.parsers[i]) && name in Claim(s.parsers[j])
    ensures i == j && name in s.csv
  {
    assert ClaimRight(c, s, i) && ClaimRight(c, s, j);
    var k :| 0 <= k < |Claim(s.parsers[i])| && Claim(s.parsers[i])[k] == name;
    var l :| 0 <= l < |Claim(s.parsers[j])| && Claim(s.parsers[j])[l] == name;
  }

  /** Steps that keep the csv directory and all claims. */
  lemma CsvUnmoved(c: Config, s: State, s': State, i: nat, p: Parser)
    requires c.procs > 0 && CsvRight(c, s) && i < |s.parsers|
    requires s'.parsers == s.parsers[i := p] && Claim(p) == Claim(s.parsers[i])
    requires s'.csv == s.csv && s'.hist.arrived == s.hist.arrived
    requires s'.hist.consumed == s.hist.consumed && s'.hist.batches == s.hist.batches
    ensures CsvRight(c, s')
  {
    hide Mine;
    forall j | 0 <= j < |s'.parsers|
      ensures Claim(s'.parsers[j]) == Claim(s.parsers[j]) && ClaimRight(c, s', j)
    {
      assert ClaimRight(c, s, j);
    }
    SameClaims(s, s');
  }

  lemma SameClaims(s: State, s': State)
    requires |s'.parsers| == |s.parsers|
    requires forall j :: 0 <= j < |s.parsers| ==> Claim(s'.parsers[j]) == Claim(s.parsers[j])
    ensures forall name :: Claimed(s', name) <==> Claimed(s, name)
  {
    hide Claim;
    forall name
      ensures Claimed(s', name) <==> Claimed(s, name)
    {
      if Claimed(s, name) {
        var j :| 0 <= j < |s.parsers| && name in Claim(s.parsers[j]);
        assert name in Claim(s'.parsers[j]);
      }
      if Claimed(s', name) {
        var j :| 0 <= j < |s'.parsers| && name in Claim(s'.parsers[j]);
        assert name in Claim(s.parsers[j]);
      }
    }
  }

  /** What an idle parser takes is there, its own, and nobody's yet. */
  lemma TakenIsFresh(c: Config, s: State, i: nat, listing: seq<string>)
    requires c.procs > 0 && CsvRight(c, s) && i < |s.parsers| && s.parsers[i].pc.Idle? && Listing(s, listing)
    ensures var fl := Take(Share(listing, i, c.procs), c.limit);
            && NoDuplicates(fl)
            && forall k :: 0 <= k < |fl| ==>
                 fl[k] in s.csv && Mine(fl[k], i, c.procs) && fl[k] !in Flatten(s.hist.batches)
  {
    hide Mine;
    var all, fl := Share(listing, i, c.procs), Take(Share(listing, i, c.procs), c.limit);
    ShareNoDuplicates(listing, i, c.procs);
    forall k | 0 <= k < |fl|
      ensures fl[k] in s.csv && Mine(fl[k], i, c.procs) && fl[k] !in Flatten(s.hist.batches)
    {
      assert fl[k] == all[k] && all[k] in all;
      ShareMembers(listing, i, c.procs, fl[k]);
      var l :| 0 <= l < |listing| && listing[l] == fl[k];
      NotYetTaken(c, s, i, fl[k]);
    }
  }

  lemma NotYetTaken(c: Config, s: State, i: nat, name: string)
    requires c.procs > 0 && CsvRight(c, s) && i < |s.parsers| && s.parsers[i].pc.Idle?
    requires name in s.csv && Mine(name, i, c.procs)
    ensures name !in Flatten(s.hist.batches)
  {
    forall j | 0 <= j < |s.parsers|
      ensures name !in Claim(s.parsers[j])
    {
      assert ClaimRight(c, s, j);
    }
  }

  lemma JoinFresh(a: seq<string>, b: seq<string>)
    requires NoDuplicates(a) && NoDuplicates(b) && forall k :: 0 <= k < |b| ==> b[k] !in a
    ensures NoDuplicates(a + b)
  {
    forall j, k | 0 <= j < k < |a + b|
      ensures (a + b)[j] != (a + b)[k]
    {
      if j < |a| <= k {
        assert a[j] in a && b[k - |a|] !in a;
      }
    }
  }

  lemma BeginKeepsCsv(c: Config, s: State, i: nat, listing: seq<string>)
    requires c.procs > 0 && CsvRight(c, s) && i < |s.parsers| && s.parsers[i].pc.Idle? && Listing(s, listing)
    requires AllWellNamed(Take(Share(listing, i, c.procs), c.limit))
    ensures CsvRight(c, BeginStep(c, s, i, Take(Share(listing, i, c.procs), c.limit)))
  {
    hide CsvRight, Mine, Listing, Share, Take, BatchItems, Convert;
    var fl := Take(Share(listing, i, c.procs), c.limit);
    var s' := BeginStep(c, s, i, fl);
    if Convert(c.env, fl, s.csv).None? {
      CsvUnmoved(c, s, s', i, s'.parsers[i]);
    } else {
      TakenIsFresh(c, s, i, listing);
      TakeKeepsCsv(c, s, s', i, fl);
    }
  }

  lemma TakeKeepsCsv(c: Config, s: State, s': State, i: nat, fl: seq<string>)
    requires c.procs > 0 && CsvRight(c, s) && i < |s.parsers| && s.parsers[i].pc.Idle?
    requires NoDuplicates(fl)
    requires forall k :: 0 <= k < |fl| ==> fl[k] in s.csv && Mine(fl[k], i, c.procs) && fl[k] !in Flatten(s.hist.batches)
    requires |s'.parsers| == |s.parsers| && s'.parsers == s.parsers[i := s'.parsers[i]] && Claim(s'.parsers[i]) == fl
    requires s'.csv == s.csv && s'.hist.arrived == s.hist.arrived && s'.hist.consumed == s.hist.consumed
    requires s'.hist.batches == s.hist.batches + [fl]
    ensures CsvRight(c, s')
  {
    hide Mine, Flatten;
    forall j | 0 <= j < |s'.parsers|
      ensures ClaimRight(c, s', j)
    {
      assert ClaimRight(c, s, j);
    }
    FlattenSnoc(s.hist.batches, fl);
    JoinFresh(Flatten(s.hist.batches), fl);
    forall name
      ensures Claimed(s', name) <==> Claimed(s, name) || name in fl
    {
      TakeClaims(s, s', i, fl, name);
    }
  }

  lemma TakeClaims(s: State, s': State, i: nat, fl: seq<string>, name: string)
    requires i < |s.parsers| && Claim(s.parsers[i]) == []
    requires |s'.parsers| == |s.parsers| && s'.parsers == s.parsers[i := s'.parsers[i]] && Claim(s'.parsers[i]) == fl
    ensures Claimed(s', name) <==> Claimed(s, name) || name in fl
  {
    hide Claim;
    if name in fl {
      assert name in Claim(s'.parsers[i]);
    } else if Claimed(s, name) {
      var j :| 0 <= j < |s.parsers| && name in Claim(s.parsers[j]);
      assert name in Claim(s'.parsers[j]);
    } else {
      forall j | 0 <= j < |s'.parsers|
        ensures name !in Claim(s'.parsers[j])
      {
        assert j == i || name !in Claim(s.parsers[j]);
      }
    }
  }

  lemma RemoveKeepsCsv(c: Config, s: State, i: nat, rest: seq<string>)
    requires c.procs > 0 && CsvRight(c, s) && i < |s.parsers| && s.parsers[i].pc == Remove(rest) && rest != []
    ensures CsvRight(c, RemoveStep(s, i, rest))
  {
    hide Mine, Claim, Flatten, ClaimRight;
    var s', gone := RemoveStep(s, i, rest), rest[0];
    RemovedClaims(s, i, rest);
    ClaimsApart(c, s, i, i, gone);
    forall j | 0 <= j < |s'.parsers|
      ensures ClaimRight(c, s', j)
    {
      RemovedElsewhere(c, s, i, rest, j);
    }
  }

  lemma RemovedClaims(s: State, i: nat, rest: seq<string>)
    requires i < |s.parsers| && s.parsers[i].pc == Remove(rest) && rest != []
    ensures var s' := RemoveStep(s, i, rest);
            && Claimed(s, rest[0]) && rest[0] in Claim(s.parsers[i])
            && forall name :: name != rest[0] && Claimed(s, name) ==> Claimed(s', name)
    ensures var s' := RemoveStep(s, i, rest); forall name :: Claimed(s', name) ==> Claimed(s, name)
  {
    var s', gone := RemoveStep(s, i, rest), rest[0];
    assert gone in Claim(s.parsers[i]);
    forall name | Claimed(s, name) && name != gone
      ensures Claimed(s', name)
    {
      var j :| 0 <= j < |s.parsers| && name in Claim(s.parsers[j]);
      assert name in Claim(s'.parsers[j]);
    }
    forall name | Claimed(s', name)
      ensures Claimed(s, name)
    {
      var j :| 0 <= j < |s'.parsers| && name in Claim(s'.parsers[j]);
      assert name in Claim(s.parsers[j]);
    }
  }

  lemma RemovedElsewhere(c: Config, s: State, i: nat, rest: seq<string>, j: nat)
    requires c.procs > 0 && CsvRight(c, s) && i < |s.parsers| && s.parsers[i].pc == Remove(rest) && rest != []
    requires j < |s.parsers|
    ensures ClaimRight(c, RemoveStep(s, i, rest), j)
  {
    hide Mine;
    var s', gone := RemoveStep(s, i, rest), rest[0];
    assert ClaimRight(c, s, i) && ClaimRight(c, s, j);
    var before, after := Claim(s.parsers[j]), Claim(s'.parsers[j]);
    forall k | 0 <= k < |after|
      ensures after[k] in s'.csv && Mine(after[k], j, c.procs)
    {
      if j == i {
        assert after[k] == before[k + 1];
      } else {
        assert after[k] in before;
        if after[k] == gone {
          assert gone in Claim(s.parsers[i]);
          ClaimsApart(c, s, i, j, gone);
        }
      }
    }
  }

  lemma ArrivalClaims(c: Config, s: State, name: string, lines: seq<string>, s': State)
    requires c.procs > 0 && CsvRight(c, s) && Step(c, s, Arrival(name, lines)) == Some(s')
    ensures forall j :: 0 <= j < |s'.parsers| ==> ClaimRight(c, s', j)
    ensures forall other :: Claimed(s', other) <==> Claimed(s, other)
  {
    hide Mine, Claim, Flatten;
    forall j | 0 <= j < |s'.parsers|
      ensures ClaimRight(c, s', j)
    {
      assert ClaimRight(c, s, j);
    }
    SameClaims(s, s');
  }

  lemma ArrivalKeepsCsv(c: Config, s: State, name: string, lines: seq<string>, s': State)
    requires c.procs > 0 && CsvRight(c, s) && Step(c, s, Arrival(name, lines)) == Some(s')
    ensures CsvRight(c, s')
  {
    ArrivalClaims(c, s, name, lines, s');
    hide ClaimRight, Claimed, Flatten;
    assert name !in s.hist.consumed;
  }
}
