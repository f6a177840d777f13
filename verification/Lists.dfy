/** Duplicate-free lists worked off from the front. */
module Lists {
  import opened Sequences

  function Take<T>(s: seq<T>, limit: int): seq<T> {
    if limit <= 0 then [] else if |s| <= limit then s else s[..limit]
  }

  predicate NoDuplicates(s: seq<string>) {
    forall i, j :: 0 <= i < j < |s| ==> s[i] != s[j]
  }

  function Without(entries: seq<string>, gone: seq<string>): seq<string> {
    if entries == [] then []
    else
      Without(entries[..|entries| - 1], gone)
      + if entries[|entries| - 1] in gone then [] else [entries[|entries| - 1]]
  }

  lemma {:induction false} WithoutSnoc(entries: seq<string>, last: string, gone: seq<string>)
    ensures Without(entries + [last], gone) == Without(entries, gone) + if last in gone then [] else [last]
  {
    assert (entries + [last])[..|entries|] == entries;
  }

  /** Taking away a prefix of a duplicate-free list leaves the rest. */
  lemma {:induction false} WithoutPrefix(s: seq<string>, k: nat)
    requires NoDuplicates(s) && k <= |s|
    ensures Without(s, s[..k]) == s[k..]
  {
    if k == |s| {
      Whole(s);
      WithoutAll(s, s);
    } else {
      var init, last := s[..|s| - 1], s[|s| - 1];
      WithoutPrefix(init, k);
      assert init[..k] == s[..k];
      assert last !in s[..k];
      assert s[k..] == init[k..] + [last];
    }
  }

  lemma {:induction false} WithoutAll(s: seq<string>, gone: seq<string>)
    requires forall i :: 0 <= i < |s| ==> s[i] in gone
    ensures Without(s, gone) == []
  {
    if s != [] {
      WithoutAll(s[..|s| - 1], gone);
    }
  }

  lemma {:induction false} WithoutTwice(s: seq<string>, a: seq<string>, b: seq<string>)
    ensures Without(Without(s, a), b) == Without(s, a + b)
  {
    if s != [] {
      var init, last := s[..|s| - 1], s[|s| - 1];
      WithoutTwice(init, a, b);
      WithoutSnoc(Without(init, a), last, b);
      RightUnit(Without(init, a));
    } else {
      assert Without([], a) == [];
    }
  }

  lemma {:induction false} WithoutKeepsOrder(s: seq<string>, gone: seq<string>)
    requires NoDuplicates(s)
    ensures NoDuplicates(Without(s, gone))
    ensures forall name :: name in Without(s, gone) <==> name in s && name !in gone
  {
    if s != [] {
      var init, last := s[..|s| - 1], s[|s| - 1];
      WithoutKeepsOrder(init, gone);
      assert s == init + [last];
    }
  }

  lemma OneMore(rounds: int, limit: int)
    ensures (rounds + 1) * limit == rounds * limit + limit
  {
  }

  lemma SharedPart(all: seq<string>, done: nat)
    requires NoDuplicates(all) && done <= |all|
    ensures NoDuplicates(all[done..])
  {
  }

  lemma TakeNext(all: seq<string>, done: nat, limit: int)
    requires done < |all| && limit >= 1
    ensures var fl := Take(all[done..], limit);
            && 0 < |fl| <= |all| - done
            && |fl| == (if |all| - done <= limit then |all| - done else limit)
            && fl == all[done..][..|fl|]
            && all[..done] + fl == all[..done + |fl|]
            && all[done..][|fl|..] == all[done + |fl|..]
  {
  }

  lemma {:induction false} WithoutNone(entries: seq<string>)
    ensures Without(entries, []) == entries
  {
    if entries != [] {
      WithoutNone(entries[..|entries| - 1]);
    }
  }
}
