/** How the csv files are shared out among the parsers (FileIO.cpp, `getCSVFilesList`). */
module WorkList {
  import opened Wrappers
  import opened Decimal
  import opened Delimited
  import opened Sequences
  import opened Lists
  import opened Decoder

  /** What follows the last dot; the whole name when there is none. */
  function Extension(name: string): string {
    if '.' !in name then name
    else if name[0] == '.' && '.' !in name[1..] then name[1..]
    else Extension(name[1..])
  }

  /** The last two digits of the timestamp token. */
  function Seconds(name: string): nat
    requires WellNamed(name)
  {
    var ts := Tokens(name, '_')[2];
    Value(ts[|ts| - 2..])
  }

  /** Work for parser `p` of `n`. */
  predicate Mine(name: string, p: int, n: int)
    requires n > 0
  {
    Extension(name) == "csv" && WellNamed(name) && Seconds(name) % n == p
  }

  /** The names of a directory listing that are work for parser `p`, in listing order. */
  function Share(entries: seq<string>, p: int, n: int): seq<string>
    requires n > 0
  {
    if entries == [] then []
    else Share(entries[..|entries| - 1], p, n) + if Mine(entries[|entries| - 1], p, n) then [entries[|entries| - 1]] else []
  }

  /** The directory holds csv files only under the names the program expects. */
  predicate ProperListing(entries: seq<string>) {
    forall i :: 0 <= i < |entries| && Extension(entries[i]) == "csv" ==> WellNamed(entries[i])
  }

  method SecondsOf(name: string) returns (seconds: int)
    requires WellNamed(name)
    ensures seconds == Seconds(name)
  {
    var nameTokens := Split(name, '_');
    var ts := nameTokens[2];
    SecondsStoi(name);
    seconds := Stoi(ts[|ts| - 2..]).value;
  }

  method GetCSVFilesList(entries: seq<string>, p: int, n: int, limit: int) returns (fl: seq<string>)
    requires n > 0 && ProperListing(entries)
    ensures fl == Take(Share(entries, p, n), limit)
  {
    var c := 0;
    fl := [];
    for i := 0 to |entries|
      invariant c == |fl| && (c <= limit || c == 0)
      invariant fl == Share(entries[..i], p, n)
    {
      if c >= limit {
        SharePrefix(entries, i, p, n);
        return;
      }
      var name := entries[i];
      Prefix(entries, i);
      RightUnit(fl);
      if Extension(name) == "csv" {
        var seconds := SecondsOf(name);
        if seconds % n == p {
          c := c + 1;
          fl := fl + [name];
        }
      }
    }
    Whole(entries);
  }

  lemma SecondsStoi(name: string)
    requires WellNamed(name)
    ensures var ts := Tokens(name, '_')[2]; Stoi(ts[|ts| - 2..]) == Some(Seconds(name))
  {
    var ts := Tokens(name, '_')[2];
    var two := ts[|ts| - 2..];
    ValueBound(two);
    StoiOfDigits(two);
  }

  lemma {:induction false} SharePrefix(entries: seq<string>, i: nat, p: int, n: int)
    requires n > 0 && i <= |entries|
    ensures Share(entries[..i], p, n) <= Share(entries, p, n)
    decreases |entries|
  {
    if i < |entries| {
      var init := entries[..|entries| - 1];
      SharePrefix(init, i, p, n);
      assert init[..i] == entries[..i];
    } else {
      assert entries[..i] == entries;
    }
  }

  // ---------- the partition ----------

  /** Every csv file is work for exactly one of the parsers 0, ..., n-1. */
  lemma OneParserEach(name: string, n: int)
    requires n > 0 && Extension(name) == "csv" && WellNamed(name)
    ensures exists p :: 0 <= p < n && Mine(name, p, n)
    ensures forall p, q :: Mine(name, p, n) && Mine(name, q, n) ==> p == q
  {
    assert Mine(name, Seconds(name) % n, n);
  }

  lemma {:induction false} ShareMembers(entries: seq<string>, p: int, n: int, name: string)
    requires n > 0
    ensures name in Share(entries, p, n) <==> name in entries && Mine(name, p, n)
  {
    if entries != [] {
      ShareMembers(entries[..|entries| - 1], p, n, name);
      assert entries == entries[..|entries| - 1] + [entries[|entries| - 1]];
    }
  }

  // ---------- draining ----------

  lemma {:induction false} ShareWithout(entries: seq<string>, gone: seq<string>, p: int, n: int)
    requires n > 0
    ensures Share(Without(entries, gone), p, n) == Without(Share(entries, p, n), gone)
  {
    hide Mine;
    if entries != [] {
      var init, last := entries[..|entries| - 1], entries[|entries| - 1];
      ShareWithout(init, gone, p, n);
      ShareSnoc(Without(init, gone), last, p, n);
      WithoutSnoc(Share(init, p, n), last, gone);
      RightUnit(Without(init, gone));
      RightUnit(Share(init, p, n));
    }
  }

  lemma {:induction false} ShareSnoc(entries: seq<string>, last: string, p: int, n: int)
    requires n > 0
    ensures Share(entries + [last], p, n) == Share(entries, p, n) + if Mine(last, p, n) then [last] else []
  {
    assert (entries + [last])[..|entries|] == entries;
  }

  lemma {:induction false} ShareNoDuplicates(entries: seq<string>, p: int, n: int)
    requires n > 0 && NoDuplicates(entries)
    ensures NoDuplicates(Share(entries, p, n))
  {
    if entries != [] {
      var init, last := entries[..|entries| - 1], entries[|entries| - 1];
      ShareNoDuplicates(init, p, n);
      ShareMembers(init, p, n, last);
    }
  }

  lemma ShareWellNamed(listing: seq<string>, i: int, n: int, limit: int)
    requires n > 0
    ensures AllWellNamed(Take(Share(listing, i, n), limit))
  {
    var all := Share(listing, i, n);
    forall k | 0 <= k < |all|
      ensures WellNamed(all[k])
    {
      assert all[k] in all;
      ShareMembers(listing, i, n, all[k]);
    }
  }

  lemma {:induction false} ProperWithout(entries: seq<string>, gone: seq<string>)
    requires ProperListing(entries)
    ensures ProperListing(Without(entries, gone))
  {
    hide WellNamed, Extension;
    if entries != [] {
      ProperWithout(entries[..|entries| - 1], gone);
    }
  }
}
