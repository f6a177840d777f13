/** The remote done list: counting, archiving and the loop over one observer (CrayAccess.cpp, main.cpp). */
module DoneList {
  import opened Sequences
  import opened Lists
  import opened Ordered

  /**
   * How the remote command of `createArchive` may end. Its parts are joined by `&&`:
   * whatever fails before the list is appended leaves the done list alone, and what
   * fails behind it (or a connection lost then) reports failure although the files
   * are on the list.
   */
  datatype Outcome = Completed | FailedBefore | FailedBehind

  predicate Listed(o: Outcome) {
    o != FailedBefore
  }

  /** The remote side as one observer sees it. */
  class Remote {
    var files: seq<string>
    var done: seq<string>
    var archives: seq<seq<string>>  // lists of the archives whose creation returned 0
    ghost const initialDone: seq<string>
    ghost var appended: seq<seq<string>>  // every list that reached the done list, in order

    ghost predicate Valid()
      reads this
    {
      && NoDuplicates(files)
      && done == initialDone + Flatten(appended)
      && NoDuplicates(Flatten(appended))
      && (forall i :: 0 <= i < |Flatten(appended)| ==> Flatten(appended)[i] !in initialDone)
      && SubsequenceOf(archives, appended)
    }

    constructor (existing: seq<string>, already: seq<string>)
      requires NoDuplicates(existing)
      ensures Valid() && files == existing && done == initialDone == already && archives == [] && appended == []
    {
      files, done, archives := existing, already, [];
      initialDone, appended := already, [];
      new;
      assert already + Flatten([]) == already;
    }

    /** A result file appears. */
    method Arrive(name: string)
      requires Valid() && name !in files
      modifies this`files
      ensures Valid() && files == old(files) + [name]
    {
      files := files + [name];
    }

    /** `find | sort | grep -Fxvf done | wc -l`; -1 when the connection fails. */
    method GetFilesCount(connected: bool) returns (count: int)
      requires Valid()
      ensures connected ==> count == |Open(files, done)|
      ensures !connected ==> count == -1
    {
      if !connected {
        return -1;
      }
      OpenCount(files, done);
      count := |Without(files, done)|;
    }

    /** Archives the first `n` files that are not done. */
    method CreateArchive(n: nat, outcome: Outcome) returns (status: int)
      requires Valid()
      modifies this`done, this`archives, this`appended
      ensures Valid()
      ensures status == 0 <==> outcome.Completed?
      ensures var list := Take(Without(old(files), old(done)), n);
              && done == old(done) + (if Listed(outcome) then list else [])
              && appended == old(appended) + (if Listed(outcome) then [list] else [])
              && archives == old(archives) + (if outcome.Completed? then [list] else [])
    {
      var list := Take(Without(files, done), n);
      if outcome.FailedBefore? {
        RightUnit(done);
        RightUnit(appended);
        RightUnit(archives);
        return 1;
      }
      ListIsNew(files, done, n);
      FlattenSnoc(appended, list);
      Associative(initialDone, Flatten(appended), list);
      NewListJoins(initialDone, Flatten(appended), list);
      done := done + list;
      appended := appended + [list];
      if outcome.FailedBehind? {
        RightUnit(archives);
        return 1;
      }
      archives := archives + [list];
      return 0;
    }
  }

  /** The files that are not on the done list. */
  ghost function Open(files: seq<string>, done: seq<string>): set<string> {
    set name | name in files && name !in done
  }

  /** The lines that `grep` leaves are the open files, each once. */
  lemma {:induction false} OpenCount(files: seq<string>, done: seq<string>)
    requires NoDuplicates(files)
    ensures |Open(files, done)| == |Without(files, done)|
  {
    if files != [] {
      var init, last := files[..|files| - 1], files[|files| - 1];
      OpenCount(init, done);
      assert last !in init;
      assert files == init + [last];
      assert Open(files, done) == Open(init, done) + if last in done then {} else {last};
    }
  }

  /** `xs` is `ys` with some elements left out. */
  ghost predicate SubsequenceOf<T>(xs: seq<T>, ys: seq<T>) {
    if xs == [] then true
    else if ys == [] then false
    else if xs[|xs| - 1] == ys[|ys| - 1] && SubsequenceOf(xs[..|xs| - 1], ys[..|ys| - 1]) then true
    else SubsequenceOf(xs, ys[..|ys| - 1])
  }

  lemma {:induction false} ListIsNew(files: seq<string>, done: seq<string>, n: nat)
    requires NoDuplicates(files)
    ensures var list := Take(Without(files, done), n);
            NoDuplicates(list) && forall i :: 0 <= i < |list| ==> list[i] in files && list[i] !in done
  {
    var open, list := Without(files, done), Take(Without(files, done), n);
    WithoutKeepsOrder(files, done);
    forall i | 0 <= i < |list|
      ensures list[i] in files && list[i] !in done
    {
      assert list[i] == open[i] && open[i] in open;
    }
  }

  lemma {:induction false} NewListJoins(initial: seq<string>, before: seq<string>, list: seq<string>)
    requires NoDuplicates(before) && NoDuplicates(list)
    requires forall i :: 0 <= i < |list| ==> list[i] !in initial + before
    requires forall i :: 0 <= i < |before| ==> before[i] !in initial
    ensures NoDuplicates(before + list)
    ensures forall i :: 0 <= i < |before + list| ==> (before + list)[i] !in initial
  {
    forall i, j | 0 <= i < j < |before + list|
      ensures (before + list)[i] != (before + list)[j]
    {
      if i < |before| <= j {
        assert before[i] in initial + before;
        assert list[j - |before|] !in initial + before;
      }
    }
  }

  // ---------- what the archives contain ----------

  lemma {:induction false} NoDuplicatesParts(a: seq<string>, b: seq<string>)
    requires NoDuplicates(a + b)
    ensures NoDuplicates(a) && NoDuplicates(b)
    ensures forall i, j :: 0 <= i < |a| && 0 <= j < |b| ==> a[i] != b[j]
  {
    forall i, j | 0 <= i < |a| && 0 <= j < |b|
      ensures a[i] != b[j]
    {
      assert (a + b)[i] == a[i] && (a + b)[|a| + j] == b[j];
    }
    forall i, j | 0 <= i < j < |a|
      ensures a[i] != a[j]
    {
      assert (a + b)[i] == a[i] && (a + b)[j] == a[j];
    }
    forall i, j | 0 <= i < j < |b|
      ensures b[i] != b[j]
    {
      assert (a + b)[|a| + i] == b[i] && (a + b)[|a| + j] == b[j];
    }
  }

  lemma {:induction false} SubsequenceFlatten(xs: seq<seq<string>>, ys: seq<seq<string>>)
    requires SubsequenceOf(xs, ys) && NoDuplicates(Flatten(ys))
    ensures NoDuplicates(Flatten(xs))
    ensures forall name :: name in Flatten(xs) ==> name in Flatten(ys)
    decreases |ys|
  {
    if xs != [] {
      var init, last := ys[..|ys| - 1], ys[|ys| - 1];
      assert ys == init + [last];
      FlattenSnoc(init, last);
      NoDuplicatesParts(Flatten(init), last);
      if xs[|xs| - 1] == last && SubsequenceOf(xs[..|xs| - 1], init) {
        SubsequenceFlatten(xs[..|xs| - 1], init);
        assert xs == xs[..|xs| - 1] + [last];
        FlattenSnoc(xs[..|xs| - 1], last);
        var a := Flatten(xs[..|xs| - 1]);
        forall i, j | 0 <= i < j < |a + last|
          ensures (a + last)[i] != (a + last)[j]
        {
          if i < |a| <= j {
            assert a[i] in a;
            var k :| 0 <= k < |Flatten(init)| && Flatten(init)[k] == a[i];
          }
        }
      } else {
        SubsequenceFlatten(xs, init);
      }
    }
  }

  /**
   * In every state: no file is in two archives whose creation returned 0 nor twice in
   * one, none of them was done before the run, and all of them are on the done list.
   */
  lemma ArchivesDisjoint(r: Remote)
    requires r.Valid()
    ensures NoDuplicates(Flatten(r.archives))
    ensures forall name :: name in Flatten(r.archives) ==> name in r.done && name !in r.initialDone
  {
    SubsequenceFlatten(r.archives, r.appended);
  }

  // ---------- the loop over one observer ----------

  /** One turn of the loop: whether the count gets through, and how the creation ends. */
  datatype Turn = Turn(connected: bool, outcome: Outcome)

  function Listings(turns: seq<Turn>): nat {
    if turns == [] then 0
    else Listings(turns[..|turns| - 1]) + if Listed(turns[|turns| - 1].outcome) then 1 else 0
  }

  lemma ValidFiles(r: Remote)
    requires r.Valid()
    ensures NoDuplicates(r.files)
  {
  }

  lemma NothingTaken(open: seq<string>, done: seq<string>)
    ensures done + Take(open, 0) == done
  {
  }

  /** After `room` of the open files have been listed, the others are left. */
  lemma LeftOpen(files: seq<string>, done: seq<string>, room: nat)
    requires NoDuplicates(files)
    ensures var open := Without(files, done);
            Without(files, done + Take(open, room)) == if room < |open| then open[room..] else []
  {
    hide Without;
    var open := Without(files, done);
    var k := if room < |open| then room else |open|;
    assert Take(open, room) == open[..k];
    WithoutTwice(files, done, open[..k]);
    WithoutKeepsOrder(files, done);
    WithoutPrefix(open, k);
  }

  lemma TakeMore(open: seq<string>, room: nat, n: nat)
    ensures var rest := if room < |open| then open[room..] else [];
            Take(open, room) + Take(rest, n) == Take(open, room + n)
  {
  }

  /**
   * The inner `while`: it ends when nothing is left, when the count fails, or when it
   * is interrupted (the turns run out). Each creation that lists its files shrinks the
   * rest by a full archive, and the last by what is left.
   */
  method ProcessObserver(r: Remote, n: nat, turns: seq<Turn>) returns (steps: nat)
    requires r.Valid() && n >= 1
    modifies r`done, r`archives, r`appended
    ensures r.Valid() && steps <= |turns|
    ensures Without(r.files, r.done) == [] || steps == |turns| || !turns[steps].connected
    ensures var open := Without(r.files, old(r.done));
            && r.done == old(r.done) + Take(open, Listings(turns[..steps]) * n)
            && (open == [] ==> steps == 0)
            && (Without(r.files, r.done) == [] ==> |open| <= Listings(turns[..steps]) * n)
            && (steps > 0 && Listed(turns[steps - 1].outcome) ==> (Listings(turns[..steps]) - 1) * n < |open|)
    ensures var open := |Without(r.files, old(r.done))|;
            Without(r.files, r.done) == [] && (forall i :: 0 <= i < steps ==> turns[i].outcome.Completed?) ==>
              if open == 0 then steps == 0 else (steps - 1) * n < open <= steps * n
  {
    hide Without, r.Valid, Take;
    steps := 0;
    ghost var open, room := Without(r.files, r.done), 0;
    NothingTaken(open, r.done);
    assert turns[..0] == [];
    while steps < |turns|
      invariant r.Valid() && steps <= |turns|
      invariant room == Listings(turns[..steps]) * n
      invariant r.done == old(r.done) + Take(open, room)
      invariant open == [] ==> steps == 0
      invariant steps > 0 && Listed(turns[steps - 1].outcome) ==> room - n < |open|
    {
      ValidFiles(r);
      LeftOpen(r.files, old(r.done), room);
      OpenCount(r.files, r.done);
      var count := r.GetFilesCount(turns[steps].connected);
      if count <= 0 {
        break;
      }
      Prefix(turns, steps);
      OneMore(Listings(turns[..steps]), n);
      TakeMore(open, room, n);
      ghost var before := r.done;
      var status := r.CreateArchive(n, turns[steps].outcome);
      if Listed(turns[steps].outcome) {
        Associative(old(r.done), Take(open, room), Take(Without(r.files, before), n));
        room := room + n;
      } else {
        RightUnit(before);
      }
      steps := steps + 1;
    }
    OneMore(Listings(turns[..steps]) - 1, n);
    ValidFiles(r);
    LeftOpen(r.files, old(r.done), room);
    if forall i :: 0 <= i < steps ==> turns[i].outcome.Completed? {
      AllListed(turns[..steps]);
    }
  }

  lemma {:induction false} AllListed(turns: seq<Turn>)
    requires forall i :: 0 <= i < |turns| ==> turns[i].outcome.Completed?
    ensures Listings(turns) == |turns|
  {
    if turns != [] {
      AllListed(turns[..|turns| - 1]);
    }
  }
}
