/** The invariant of the hand-off protocol, kept by every step of every process. */
module Invariant {
  import opened Wrappers
  import opened Lists
  import opened Decoder
  import opened Rows
  import opened Minutes
  import opened Batch
  import opened WorkList
  import opened Pipeline
  import opened Locks
  import opened Files
  import opened Steps
  import opened Execution
  import opened Ledger
  import opened Conversion
  import opened RowAccount

  // ---------- the batches converted so far ----------

  ghost predicate BatchRight(env: Environment, arrived: map<string, seq<string>>, names: seq<string>) {
    && AllWellNamed(names)
    && (forall k :: 0 <= k < |names| ==> names[k] in arrived)
    && BatchDetections(env, names, arrived).Some?
  }

  ghost predicate BatchesRight(env: Environment, arrived: map<string, seq<string>>, batches: seq<seq<string>>) {
    forall b :: 0 <= b < |batches| ==> BatchRight(env, arrived, batches[b])
  }

  /** The rows of all converted batches, computed from the files as they arrived. */
  ghost function BatchTotals(env: Environment, arrived: map<string, seq<string>>, batches: seq<seq<string>>): multiset<Item>
    requires BatchesRight(env, arrived, batches)
  {
    if batches == [] then multiset{}
    else
      var last := |batches| - 1;
      assert BatchRight(env, arrived, batches[last]);
      BatchTotals(env, arrived, batches[..last]) + BatchItems(env, batches[last], arrived)
  }

  ghost predicate ConvertedRight(c: Config, s: State) {
    BatchesRight(c.env, s.hist.arrived, s.hist.batches)
    && s.hist.converted == BatchTotals(c.env, s.hist.arrived, s.hist.batches)
  }

  /** A batch depends on its own files only. */
  lemma {:induction false} BatchFrame(env: Environment, names: seq<string>, a: map<string, seq<string>>, b: map<string, seq<string>>)
    requires AllWellNamed(names)
    requires forall k :: 0 <= k < |names| ==> names[k] in a && names[k] in b && a[names[k]] == b[names[k]]
    ensures BatchDetections(env, names, a) == BatchDetections(env, names, b)
  {
    hide FileDetections, StampOf, WellNamed;
    if names != [] {
      BatchFrame(env, names[..|names| - 1], a, b);
    }
  }

  lemma {:induction false} TotalsFrame(env: Environment, a: map<string, seq<string>>, b: map<string, seq<string>>, batches: seq<seq<string>>)
    requires BatchesRight(env, a, batches)
    requires forall name :: name in a ==> name in b && b[name] == a[name]
    ensures BatchesRight(env, b, batches)
    ensures BatchTotals(env, b, batches) == BatchTotals(env, a, batches)
  {
    hide BatchDetections, AcceptedItems;
    if batches != [] {
      var init, last := batches[..|batches| - 1], batches[|batches| - 1];
      forall k | 0 <= k < |init|
        ensures BatchRight(env, a, init[k])
      {
        assert BatchRight(env, a, batches[k]);
      }
      TotalsFrame(env, a, b, init);
      assert BatchRight(env, a, last);
      BatchFrame(env, last, a, b);
      forall k | 0 <= k < |batches|
        ensures BatchRight(env, b, batches[k])
      {
        assert k < |init| ==> BatchRight(env, b, init[k]);
      }
    }
  }

  lemma BeginKeepsConverted(c: Config, s: State, i: nat, fl: seq<string>)
    requires i < |s.parsers| && AllWellNamed(fl) && ConvertedRight(c, s)
    requires forall k :: 0 <= k < |fl| ==> fl[k] in s.csv
    requires forall name :: name in s.csv ==> name in s.hist.arrived && s.csv[name] == s.hist.arrived[name]
    ensures ConvertedRight(c, BeginStep(c, s, i, fl))
  {
    hide BatchDetections, AcceptedItems, Groups, Grouped;
    var arrived, batches := s.hist.arrived, s.hist.batches;
    BatchFrame(c.env, fl, s.csv, arrived);
    if Convert(c.env, fl, s.csv).Some? {
      forall b | 0 <= b < |batches + [fl]|
        ensures BatchRight(c.env, arrived, (batches + [fl])[b])
      {
        assert b < |batches| ==> BatchRight(c.env, arrived, batches[b]);
      }
      assert (batches + [fl])[..|batches|] == batches;
    }
  }

  // ---------- the invariant ----------

  ghost predicate Inv(c: Config, s: State)
    requires c.procs > 0
  {
    && |s.parsers| == c.procs
    && Safe(c, s)
    && ReadingRight(s)
    && LedgerRight(s)
    && CsvRight(c, s)
    && RowsRight(s)
    && ConvertedRight(c, s)
  }

  /** A parser step that leaves all files alone leaves the database process and the books alone. */
  lemma QuietForDb(s: State, s': State)
    requires ReadingRight(s) && LedgerRight(s)
    requires forall file :: Content(s'.work, file) == Content(s.work, file)
    requires s'.dbpc == s.dbpc && s'.db == s.db && s'.err == s.err
    requires s'.hist.appended == s.hist.appended && s'.hist.executed == s.hist.executed && s'.hist.retired == s.hist.retired
    ensures ReadingRight(s') && LedgerRight(s')
  {
    hide AllInEffect, LedgerRight;
    LedgerUnmoved(s, s');
  }

  /** The file in hand is not the one a parser is writing. */
  lemma HandApart(s: State, i: nat, file: string)
    requires LocksRight(s) && i < |s.parsers| && Holds(s, P(i)) == Some(file)
    ensures Holds(s, Db) != Some(file)
  {
    if Holds(s, Db).Some? {
      AloneWith(s, P(i), Db);
    }
  }

  // ---------- parser steps ----------

  lemma BeginKeeps(c: Config, s: State, i: nat, listing: seq<string>)
    requires c.procs > 0 && Inv(c, s) && i < |s.parsers| && s.parsers[i].pc.Idle? && Listing(s, listing)
    requires AllWellNamed(Take(Share(listing, i, c.procs), c.limit))
    ensures Inv(c, BeginStep(c, s, i, Take(Share(listing, i, c.procs), c.limit)))
  {
    hide LocksRight, FilesRight, ReadingRight, LedgerRight, RowsRight, ConvertedRight, Listing, Share, Take, Mine, ClaimRight;
    var fl := Take(Share(listing, i, c.procs), c.limit);
    var s' := BeginStep(c, s, i, fl);
    TakenIsFresh(c, s, i, listing);
    BeginKeepsLocks(c, s, i, fl);
    BeginKeepsFiles(c, s, i, fl);
    BeginKeepsCsv(c, s, i, listing);
    BeginKeepsRows(c, s, i, fl);
    BeginKeepsConverted(c, s, i, fl);
    BeginQuiet(c, s, i, fl);
  }

  lemma BeginQuiet(c: Config, s: State, i: nat, fl: seq<string>)
    requires i < |s.parsers| && AllWellNamed(fl) && ReadingRight(s) && LedgerRight(s)
    ensures ReadingRight(BeginStep(c, s, i, fl)) && LedgerRight(BeginStep(c, s, i, fl))
  {
    hide ReadingRight, LedgerRight, Convert, BatchItems;
    QuietForDb(s, BeginStep(c, s, i, fl));
  }

  /** The steps that only move a parser along. */
  lemma MoveKeeps(c: Config, s: State, s': State, i: nat, p: Parser)
    requires c.procs > 0 && Inv(c, s) && i < |s.parsers|
    requires s' == WithParser(s, i, p)
    requires p.todo == s.parsers[i].todo && Claim(p) == Claim(s.parsers[i]) && RestsEmpty(p)
    requires !s.parsers[i].pc.Write? && !p.pc.Write? && ParserHolds(p.pc) == ParserHolds(s.parsers[i].pc)
    requires ParserOk(c, s, p)
    ensures Inv(c, s')
  {
    hide LocksRight, FilesRight, ReadingRight, LedgerRight, CsvRight, RowsRight, BatchTotals, BatchesRight, TodoOk, Complete;
    StayKeepsLocks(s, s', i, p);
    FilesUnmoved(c, s, s', i, p);
    QuietForDb(s, s');
    CsvUnmoved(c, s, s', i, p);
    RowsUnmoved(s, s', i, p);
  }

  lemma InvParser(c: Config, s: State, i: nat)
    requires c.procs > 0 && Inv(c, s) && i < |s.parsers|
    ensures ParserOk(c, s, s.parsers[i]) && RestsEmpty(s.parsers[i])
  {
    hide LocksRight, ReadingRight, LedgerRight, CsvRight, ConvertedRight, Complete;
    OneParserOk(c, s, i);
  }

  lemma PickKeeps(c: Config, s: State, i: nat, t: string)
    requires c.procs > 0 && Inv(c, s) && i < |s.parsers| && s.parsers[i].pc.Choose? && t in s.parsers[i].todo
    ensures Inv(c, Goto(s, i, Acquire(t)))
  {
    hide Inv, Complete, TodoOk;
    InvParser(c, s, i);
    MoveKeeps(c, s, Goto(s, i, Acquire(t)), i, s.parsers[i].(pc := Acquire(t)));
  }

  lemma FinishKeeps(c: Config, s: State, i: nat)
    requires c.procs > 0 && Inv(c, s) && i < |s.parsers| && s.parsers[i].pc.Choose? && s.parsers[i].todo == map[]
    ensures Inv(c, FinishStep(s, i))
  {
    hide Inv, Complete, TodoOk;
    InvParser(c, s, i);
    MoveKeeps(c, s, FinishStep(s, i), i, FinishStep(s, i).parsers[i]);
  }

  lemma RestKeeps(c: Config, s: State, i: nat)
    requires c.procs > 0 && Inv(c, s) && i < |s.parsers| && s.parsers[i].pc == Remove([])
    ensures Inv(c, RestStep(s, i))
  {
    hide Inv, Complete, TodoOk;
    InvParser(c, s, i);
    MoveKeeps(c, s, RestStep(s, i), i, RestStep(s, i).parsers[i]);
  }

  lemma CheckKeeps(c: Config, s: State, i: nat, t: string)
    requires c.procs > 0 && Inv(c, s) && i < |s.parsers| && s.parsers[i].pc == Check(t)
    ensures Inv(c, CheckStep(c, s, i, t))
  {
    hide ReadingRight, LedgerRight, CsvRight, RowsRight, ConvertedRight, Complete, LocksRight, FilesRight, GroupOk;
    OneParserOk(c, s, i);
    StemName(t);
    NoSqlLock(s, FileName(t));
    var s' := CheckStep(c, s, i, t);
    InvParser(c, s, i);
    MoveKeeps(c, s, s', i, s'.parsers[i]);
  }

  lemma AcquireKeeps(c: Config, s: State, i: nat, t: string)
    requires c.procs > 0 && Inv(c, s) && i < |s.parsers| && s.parsers[i].pc == Acquire(t)
    ensures Inv(c, AcquireStep(s, i, t))
  {
    hide LocksRight, FilesRight, ReadingRight, LedgerRight, CsvRight, RowsRight, BatchTotals, BatchesRight;
    var s' := AcquireStep(s, i, t);
    if s' != s {
      AcquireKeepsLocks(s, i, t);
      AcquireKeepsFiles(c, s, i, t);
      QuietForDb(s, s');
      CsvUnmoved(c, s, s', i, s'.parsers[i]);
      RowsUnmoved(s, s', i, s'.parsers[i]);
    }
  }

  lemma ReleaseKeeps(c: Config, s: State, i: nat, t: string)
    requires c.procs > 0 && Inv(c, s) && i < |s.parsers| && s.parsers[i].pc == Release(t)
    ensures Inv(c, ReleaseStep(s, i, t))
  {
    hide LocksRight, FilesRight, ReadingRight, LedgerRight, CsvRight, RowsRight, BatchTotals, BatchesRight;
    var s' := ReleaseStep(s, i, t);
    ReleaseKeepsLocks(s, i, t);
    ReleaseKeepsFiles(c, s, i, t);
    LockIsNoFile(s, i, t);
    QuietForDb(s, s');
    CsvUnmoved(c, s, s', i, s'.parsers[i]);
    RowsUnmoved(s, s', i, s'.parsers[i]);
  }

  lemma LockIsNoFile(s: State, i: nat, t: string)
    requires LocksRight(s) && i < |s.parsers| && s.parsers[i].pc == Release(t)
    ensures forall file :: Content(ReleaseStep(s, i, t).work, file) == Content(s.work, file)
  {
    assert Holds(s, P(i)) == Some(FileName(t));
    assert HasLock(s, LockName(FileName(t)));
  }

  lemma CloseKeeps(c: Config, s: State, i: nat, t: string)
    requires c.procs > 0 && Inv(c, s) && i < |s.parsers| && s.parsers[i].pc == Write(t, [])
    ensures Inv(c, Goto(s, i, Release(t)))
  {
    hide LocksRight, FilesRight, ReadingRight, LedgerRight, CsvRight, RowsRight, BatchTotals, BatchesRight;
    var s' := Goto(s, i, Release(t));
    StayKeepsLocks(s, s', i, s'.parsers[i]);
    CloseKeepsFiles(c, s, i, t);
    QuietForDb(s, s');
    CsvUnmoved(c, s, s', i, s'.parsers[i]);
    RowsUnmoved(s, s', i, s'.parsers[i]);
  }

  lemma OpenKeeps(c: Config, s: State, i: nat, t: string, create: bool)
    requires c.procs > 0 && Inv(c, s) && i < |s.parsers| && s.parsers[i].pc == Open(t, create)
    requires t in s.parsers[i].todo && !HasLock(s, FileName(t))
    ensures Inv(c, OpenStep(c, s, i, t, create))
  {
    hide LocksRight, FilesRight, ReadingRight, LedgerRight, CsvRight, RowsRight, BatchTotals, BatchesRight, Statements;
    var s' := OpenStep(c, s, i, t, create);
    StayKeepsLocks(s, s', i, s'.parsers[i]);
    OpenKeepsFiles(c, s, i, t, create);
    QuietForDb(s, s');
    CsvUnmoved(c, s, s', i, s'.parsers[i]);
    OpenKeepsRows(c, s, i, t, create);
  }

  lemma WriteKeeps(c: Config, s: State, i: nat, t: string, queue: seq<Stmt>)
    requires c.procs > 0 && Inv(c, s) && i < |s.parsers| && s.parsers[i].pc == Write(t, queue) && queue != []
    requires HasFile(s, FileName(t))
    ensures Inv(c, WriteStep(s, i, t, queue))
  {
    hide LocksRight, FilesRight, ReadingRight, LedgerRight, CsvRight, RowsRight, BatchTotals, BatchesRight;
    var s' := WriteStep(s, i, t, queue);
    StayKeepsLocks(s, s', i, s'.parsers[i]);
    WriteKeepsFiles(c, s, i, t, queue);
    WriteKeepsReading(s, i, t, queue);
    WriteKeepsLedger(c, s, i, t, queue);
    CsvUnmoved(c, s, s', i, s'.parsers[i]);
    WriteKeepsRows(s, i, t, queue);
  }

  lemma WriteKeepsReading(s: State, i: nat, t: string, queue: seq<Stmt>)
    requires i < |s.parsers| && s.parsers[i].pc == Write(t, queue) && queue != [] && HasFile(s, FileName(t))
    requires LocksRight(s) && ReadingRight(s)
    ensures ReadingRight(WriteStep(s, i, t, queue))
  {
    hide LocksRight, AllInEffect;
    assert Holds(s, P(i)) == Some(FileName(t));
    HandApart(s, i, FileName(t));
  }

  lemma RemoveKeeps(c: Config, s: State, i: nat, rest: seq<string>)
    requires c.procs > 0 && Inv(c, s) && i < |s.parsers| && s.parsers[i].pc == Remove(rest) && rest != []
    ensures Inv(c, RemoveStep(s, i, rest))
  {
    hide LocksRight, ReadingRight, LedgerRight, CsvRight, RowsRight, BatchTotals, BatchesRight, TodoOk, Complete, FilesRight;
    var s' := RemoveStep(s, i, rest);
    InvParser(c, s, i);
    StayKeepsLocks(s, s', i, s'.parsers[i]);
    FilesUnmoved(c, s, s', i, s'.parsers[i]);
    QuietForDb(s, s');
    RemoveKeepsCsv(c, s, i, rest);
    RowsUnmoved(s, s', i, s'.parsers[i]);
  }

  /** Every parser step keeps the invariant. */
  lemma ParserKeeps(c: Config, s: State, i: nat, ch: Choice, s': State)
    requires c.procs > 0 && Inv(c, s) && i < |s.parsers| && ParserStep(c, s, i, ch) == Some(s')
    ensures Inv(c, s')
  {
    hide Inv, BeginStep, Goto, FinishStep, AcquireStep, CheckStep, OpenStep, WriteStep, ReleaseStep, RemoveStep, RestStep,
      Listing, Share, Take, HasLock, HasFile;
    match s.parsers[i].pc
    case Idle =>
      ShareWellNamed(ch.listing, i, c.procs, c.limit);
      if s' != s {
        BeginKeeps(c, s, i, ch.listing);
      }
    case Choose =>
      if ch.Pick? {
        PickKeeps(c, s, i, ch.t);
      } else {
        FinishKeeps(c, s, i);
      }
    case Acquire(t) => AcquireKeeps(c, s, i, t);
    case Check(t) => CheckKeeps(c, s, i, t);
    case Open(t, create) => OpenKeeps(c, s, i, t, create);
    case Write(t, queue) =>
      if queue == [] {
        CloseKeeps(c, s, i, t);
      } else {
        WriteKeeps(c, s, i, t, queue);
      }
    case Release(t) => ReleaseKeeps(c, s, i, t);
    case Remove(rest) =>
      if rest == [] {
        RestKeeps(c, s, i);
      } else {
        RemoveKeeps(c, s, i, rest);
      }
    case Dead =>
  }
}
