/** One parser on its own: the loop of main.cpp, `startParserProcess`, while nothing new arrives. */
module ParserLoop {
  import opened Sequences
  import opened Lists
  import opened Decoder
  import opened Batch
  import opened WorkList

  /** Batch `r` of the files `all`, taken `limit` at a time, is converted without an exception. */
  ghost predicate BatchConverts(env: Environment, csv: map<string, seq<string>>, all: seq<string>, limit: nat, r: nat) {
    r * limit < |all| ==>
      var fl := Take(all[r * limit..], limit);
      AllWellNamed(fl) && Convert(env, fl, csv).Some?
  }

  /** Every batch of the files converts. */
  ghost predicate AllConvert(env: Environment, csv: map<string, seq<string>>, all: seq<string>, limit: nat) {
    forall r: nat :: BatchConverts(env, csv, all, limit, r)
  }

  /** The least number of rounds that can hold the files. */
  predicate LeastRounds(all: seq<string>, limit: nat, rounds: nat) {
    if all == [] then rounds == 0 else rounds > 0 && (rounds - 1) * limit < |all| <= rounds * limit
  }

  function Least(a: nat, b: nat): nat {
    if a <= b then a else b
  }

  /** The directory after `rounds` rounds. */
  ghost predicate After(before: seq<string>, now: seq<string>, p: int, n: int, limit: nat, rounds: nat)
    requires n > 0
  {
    var all := Share(before, p, n);
    var done := Least(rounds * limit, |all|);
    && ProperListing(now) && NoDuplicates(now) && NoDuplicates(all)
    && now == Without(before, all[..done]) && Share(now, p, n) == all[done..]
    && (rounds == 0 || (rounds - 1) * limit < |all|)
  }

  lemma AtFirst(before: seq<string>, p: int, n: int, limit: nat)
    requires n > 0 && ProperListing(before) && NoDuplicates(before)
    ensures After(before, before, p, n, limit, 0)
  {
    WithoutNone(before);
    ShareNoDuplicates(before, p, n);
  }

  lemma OneRound(before: seq<string>, now: seq<string>, p: int, n: int, limit: nat, rounds: nat, fl: seq<string>)
    requires n > 0 && limit >= 1 && After(before, now, p, n, limit, rounds)
    requires fl == Take(Share(now, p, n), limit) && fl != []
    ensures rounds * limit < |Share(before, p, n)| && fl == Take(Share(before, p, n)[rounds * limit..], limit)
    ensures After(before, Without(now, fl), p, n, limit, rounds + 1)
  {
    hide Share, Without, Mine, Extension, WellNamed;
    var all := Share(before, p, n);
    var done := Least(rounds * limit, |all|);
    assert rounds * limit < |all|;
    TakeNext(all, done, limit);
    ShareWithout(now, fl, p, n);
    SharedPart(all, done);
    WithoutPrefix(all[done..], |fl|);
    WithoutTwice(before, all[..done], fl);
    WithoutKeepsOrder(now, fl);
    ProperWithout(now, fl);
    OneMore(rounds, limit);
  }

  lemma AtLast(before: seq<string>, now: seq<string>, p: int, n: int, limit: nat, rounds: nat)
    requires n > 0 && limit >= 1 && After(before, now, p, n, limit, rounds) && Take(Share(now, p, n), limit) == []
    ensures var all := Share(before, p, n);
            LeastRounds(all, limit, rounds) && now == Without(before, all) && |all| <= rounds * limit
  {
    hide Share, Without;
    Whole(Share(before, p, n));
  }

  /** The csv directory: its listing, and what the files contain. */
  class CsvDirectory {
    var entries: seq<string>
    const contents: map<string, seq<string>>

    constructor (listing: seq<string>, files: map<string, seq<string>>)
      ensures entries == listing && contents == files
    {
      entries, contents := listing, files;
    }

    method RemoveFilesLocal(fl: seq<string>)
      modifies this`entries
      ensures entries == Without(old(entries), fl)
    {
      WithoutNone(entries);
      for i := 0 to |fl|
        invariant entries == Without(old(entries), fl[..i])
      {
        Prefix(fl, i);
        WithoutTwice(old(entries), fl[..i], [fl[i]]);
        entries := Without(entries, [fl[i]]);
      }
      Whole(fl);
    }

    /**
     * The parser loop. It survives exactly when every batch of its files can be
     * converted; then none of its files is left, everybody else's are in place, and it
     * took the least number of rounds that can hold them. Otherwise it ends in the first
     * batch that throws, with the batches before removed and nothing else.
     */
    method Run(env: Environment, p: int, n: int, limit: int) returns (rounds: nat, alive: bool)
      requires n > 0 && limit >= 1
      requires ProperListing(entries) && NoDuplicates(entries)
      modifies this`entries
      ensures alive <==> AllConvert(env, contents, Share(old(entries), p, n), limit)
      ensures alive ==> entries == Without(old(entries), Share(old(entries), p, n))
      ensures alive ==> LeastRounds(Share(old(entries), p, n), limit, rounds)
      ensures !alive ==> rounds * limit < |Share(old(entries), p, n)|
      ensures !alive ==> entries == Without(old(entries), Share(old(entries), p, n)[..rounds * limit])
      ensures !alive ==> !BatchConverts(env, contents, Share(old(entries), p, n), limit, rounds)
    {
      hide Share, Without, BatchConverts, After, AllWellNamed, ProperListing, NoDuplicates, Take, LeastRounds;
      ghost var all := Share(entries, p, n);
      rounds, alive := 0, true;
      AtFirst(entries, p, n, limit);
      ShareWellNamed(entries, p, n, limit);
      var fl := GetCSVFilesList(entries, p, n, limit);
      while |fl| > 0
        invariant ProperListing(entries) && After(old(entries), entries, p, n, limit, rounds)
        invariant fl == Take(Share(entries, p, n), limit) && AllWellNamed(fl)
        invariant forall r: nat :: r < rounds ==> BatchConverts(env, contents, all, limit, r)
        decreases |Share(entries, p, n)|
      {
        OneRound(old(entries), entries, p, n, limit, rounds, fl);
        var groups := ConvertFiles(env, fl, contents);
        BatchAt(env, contents, all, limit, rounds, fl);
        if groups.None? {
          DirectoryAfter(old(entries), entries, p, n, limit, rounds);
          return rounds, false;
        }
        ShareShrinks(old(entries), entries, p, n, limit, rounds, fl);
        RemoveFilesLocal(fl);
        rounds := rounds + 1;
        ShareWellNamed(entries, p, n, limit);
        fl := GetCSVFilesList(entries, p, n, limit);
      }
      AtLast(old(entries), entries, p, n, limit, rounds);
      forall r: nat
        ensures BatchConverts(env, contents, all, limit, r)
      {
        if r >= rounds {
          NoSuchBatch(env, contents, all, limit, r, rounds);
        }
      }
    }
  }

  lemma DirectoryAfter(before: seq<string>, now: seq<string>, p: int, n: int, limit: nat, rounds: nat)
    requires n > 0 && After(before, now, p, n, limit, rounds) && rounds * limit < |Share(before, p, n)|
    ensures now == Without(before, Share(before, p, n)[..rounds * limit])
  {
    hide Share, Without;
  }

  lemma ShareShrinks(before: seq<string>, now: seq<string>, p: int, n: int, limit: nat, rounds: nat, fl: seq<string>)
    requires n > 0 && limit >= 1 && After(before, now, p, n, limit, rounds)
    requires After(before, Without(now, fl), p, n, limit, rounds + 1) && rounds * limit < |Share(before, p, n)|
    ensures |Share(Without(now, fl), p, n)| < |Share(now, p, n)|
    ensures ProperListing(Without(now, fl))
  {
    hide Share, Without;
    OneMore(rounds, limit);
  }

  lemma BatchAt(env: Environment, csv: map<string, seq<string>>, all: seq<string>, limit: nat, r: nat, fl: seq<string>)
    requires r * limit < |all| && fl == Take(all[r * limit..], limit) && AllWellNamed(fl)
    ensures BatchConverts(env, csv, all, limit, r) <==> Convert(env, fl, csv).Some?
  {
    hide Convert;
  }

  /** Behind the last round there is nothing to convert. */
  lemma NoSuchBatch(env: Environment, csv: map<string, seq<string>>, all: seq<string>, limit: nat, r: nat, rounds: nat)
    requires r >= rounds && |all| <= rounds * limit
    ensures BatchConverts(env, csv, all, limit, r)
  {
    MoreRounds(r, rounds, limit);
  }

  lemma MoreRounds(r: nat, rounds: nat, limit: nat)
    requires r >= rounds
    ensures rounds * limit <= r * limit
  {
  }
}
