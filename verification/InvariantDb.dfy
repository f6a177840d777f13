/** The invariant under the steps of the database process and under arrivals; reachability. */
module InvariantDb {
  import opened Wrappers
  import opened Sequences
  import opened Rows
  import opened Minutes
  import opened WorkList
  import opened Pipeline
  import opened Locks
  import opened Files
  import opened Steps
  import opened Execution
  import opened Ledger
  import opened Conversion
  import opened RowAccount
  import opened Invariant

  /** A step of the database process leaves the parsers and their accounts alone. */
  lemma QuietForParsers(c: Config, s: State, s': State)
    requires c.procs > 0 && Inv(c, s)
    requires s'.parsers == s.parsers && s'.csv == s.csv
    requires s'.hist.arrived == s.hist.arrived && s'.hist.consumed == s.hist.consumed && s'.hist.batches == s.hist.batches
    requires s'.hist.converted == s.hist.converted && s'.hist.appended == s.hist.appended
    ensures |s'.parsers| == c.procs && CsvRight(c, s') && RowsRight(s') && ConvertedRight(c, s')
  {
    hide Safe, ReadingRight, LedgerRight, ClaimRight, Written, AllOutstanding, BatchTotals, BatchesRight;
    forall j | 0 <= j < |s'.parsers|
      ensures ClaimRight(c, s', j)
    {
      assert ClaimRight(c, s, j);
      SameClaimRight(c, s, s', j);
    }
    SameClaims(s, s');
  }

  lemma SameClaimRight(c: Config, s: State, s': State, j: nat)
    requires c.procs > 0 && j < |s.parsers| && s'.parsers == s.parsers && s'.csv == s.csv && ClaimRight(c, s, j)
    ensures ClaimRight(c, s', j)
  {
  }

  /** A move of the database process that touches no file. */
  lemma DbMoveKeeps(c: Config, s: State, s': State)
    requires c.procs > 0 && Inv(c, s) && s' == s.(dbpc := s'.dbpc)
    requires DbHolds(s'.dbpc) == DbHolds(s.dbpc)
    requires DbFile(s'.dbpc).Some? ==> HasFile(s', DbFile(s'.dbpc).value)
    requires s'.dbpc.Leave? ==> SqlName(s'.dbpc.file)
    requires ReadingRight(s')
    requires forall file :: InHand(s', file) == InHand(s, file)
    ensures Inv(c, s')
  {
    hide LocksRight, FilesRight, ReadingRight, LedgerRight, CsvRight, RowsRight, ConvertedRight, InHand;
    StayKeepsLocksDb(s, s');
    FilesUnmovedDb(c, s, s');
    LedgerUnmoved(s, s');
    QuietForParsers(c, s, s');
  }

  lemma ScanKeeps(c: Config, s: State, name: string)
    requires c.procs > 0 && Inv(c, s) && s.dbpc.Scan? && HasFile(s, name)
    ensures Inv(c, s.(dbpc := Want(name)))
  {
    hide Inv;
    DbMoveKeeps(c, s, s.(dbpc := Want(name)));
  }

  lemma WantKeeps(c: Config, s: State, n: string)
    requires c.procs > 0 && Inv(c, s) && s.dbpc == Want(n)
    ensures Inv(c, WantStep(s, n))
  {
    hide LocksRight, FilesRight, LedgerRight, CsvRight, RowsRight, ConvertedRight;
    var s' := WantStep(s, n);
    if s' != s {
      WantKeepsLocks(s, n);
      HandInWork(c, s, n);
      FilesUnmovedDb(c, s, s');
      LedgerUnmoved(s, s');
      QuietForParsers(c, s, s');
    }
  }

  /** The file the database process has chosen or holds is there. */
  lemma HandInWork(c: Config, s: State, n: string)
    requires FilesRight(c, s) && DbFile(s.dbpc) == Some(n)
    ensures HasFile(s, n) && SqlName(n)
  {
  }

  lemma OpeningKeeps(c: Config, s: State, n: string)
    requires c.procs > 0 && Inv(c, s) && s.dbpc == Opening(n)
    ensures HasFile(s, n) && Inv(c, s.(dbpc := Read(n, 0)))
  {
    hide LocksRight, FilesRight, LedgerRight, CsvRight, RowsRight, ConvertedRight, SqlName;
    HandInWork(c, s, n);
    DbMoveKeeps(c, s, s.(dbpc := Read(n, 0)));
  }

  /** End of file: everything has been executed. */
  lemma EndKeeps(c: Config, s: State, n: string, pos: nat)
    requires c.procs > 0 && Inv(c, s) && s.dbpc == Read(n, pos) && HasFile(s, n) && pos == |s.work[n].stmts|
    ensures Inv(c, s.(dbpc := Unlink(n)))
  {
    hide LocksRight, FilesRight, LedgerRight, CsvRight, RowsRight, ConvertedRight, InEffect;
    Whole(s.work[n].stmts);
    DbMoveKeeps(c, s, s.(dbpc := Unlink(n)));
  }

  lemma RefuseKeeps(c: Config, s: State, n: string, pos: nat)
    requires c.procs > 0 && Inv(c, s) && s.dbpc == Read(n, pos) && HasFile(s, n) && pos < |s.work[n].stmts|
    ensures Inv(c, s.(dbpc := Probe(n, pos, n)))
  {
    hide LocksRight, FilesRight, LedgerRight, CsvRight, RowsRight, ConvertedRight, InEffect, OnTheWay;
    HandInWork(c, s, n);
    FirstOnTheWay(s.err, n);
    DbMoveKeeps(c, s, s.(dbpc := Probe(n, pos, n)));
  }

  lemma ProbeKeeps(c: Config, s: State, n: string, pos: nat, dest: string)
    requires c.procs > 0 && Inv(c, s) && s.dbpc == Probe(n, pos, dest) && |dest| >= 4
    ensures Inv(c, ProbeStep(s, n, pos, dest))
  {
    hide LocksRight, FilesRight, LedgerRight, CsvRight, RowsRight, ConvertedRight, SqlName, OnTheWay;
    HandInWork(c, s, n);
    if dest in s.err {
      NextOnTheWay(s.err, n, dest);
    }
    DbMoveKeeps(c, s, ProbeStep(s, n, pos, dest));
  }

  lemma ExecuteKeeps(c: Config, s: State, n: string, pos: nat)
    requires c.procs > 0 && Inv(c, s) && s.dbpc == Read(n, pos) && HasFile(s, n) && pos < |s.work[n].stmts|
    ensures Inv(c, ExecuteStep(s, n, pos))
  {
    hide LocksRight, FilesRight, ReadingRight, LedgerRight, CsvRight, RowsRight, ConvertedRight, Apply;
    var s' := ExecuteStep(s, n, pos);
    StayKeepsLocksDb(s, s');
    FilesUnmovedDb(c, s, s');
    ExecuteKeepsReading(s, n, pos);
    ExecuteKeepsLedger(s, n, pos);
    QuietForParsers(c, s, s');
  }

  lemma UnlinkKeeps(c: Config, s: State, n: string)
    requires c.procs > 0 && Inv(c, s) && s.dbpc == Unlink(n) && HasFile(s, n)
    ensures Inv(c, UnlinkStep(s, n))
  {
    hide LocksRight, FilesRight, LedgerRight, CsvRight, RowsRight, ConvertedRight, InEffect;
    var s' := UnlinkStep(s, n);
    StayKeepsLocksDb(s, s');
    FilesRetired(c, s, s', n);
    RetireKeepsLedger(s, s', n, Drained(s.work[n].stmts));
    QuietForParsers(c, s, s');
  }

  lemma RenameKeeps(c: Config, s: State, n: string, pos: nat, dest: string)
    requires c.procs > 0 && Inv(c, s) && s.dbpc == Rename(n, pos, dest) && HasFile(s, n)
    ensures Inv(c, RenameStep(s, n, pos, dest))
  {
    hide LocksRight, FilesRight, LedgerRight, CsvRight, RowsRight, ConvertedRight;
    var s' := RenameStep(s, n, pos, dest);
    StayKeepsLocksDb(s, s');
    FilesRetired(c, s, s', n);
    RetireKeepsLedger(s, s', n, Moved(s.work[n].stmts, pos, dest));
    QuietForParsers(c, s, s');
  }

  lemma LeaveKeeps(c: Config, s: State, n: string)
    requires c.procs > 0 && Inv(c, s) && s.dbpc == Leave(n)
    ensures Inv(c, LeaveStep(s, n))
  {
    hide LocksRight, FilesRight, LedgerRight, CsvRight, RowsRight, ConvertedRight;
    var s' := LeaveStep(s, n);
    LeaveKeepsLocks(s, n);
    LeaveIsNoFile(s, n);
    FilesUnmovedDb(c, s, s');
    LedgerUnmoved(s, s');
    QuietForParsers(c, s, s');
  }

  lemma LeaveIsNoFile(s: State, n: string)
    requires LocksRight(s) && s.dbpc == Leave(n)
    ensures SameFilesAll(s, LeaveStep(s, n))
  {
    assert Holds(s, Db) == Some(n);
    assert HasLock(s, LockName(n));
  }

  /** Every step of the database process keeps the invariant. */
  lemma DbKeeps(c: Config, s: State, ch: DbChoice, s': State)
    requires c.procs > 0 && Inv(c, s) && DbStep(s, ch) == Some(s')
    ensures Inv(c, s')
  {
    hide Inv, WantStep, ExecuteStep, UnlinkStep, ProbeStep, RenameStep, LeaveStep, Admissible;
    match s.dbpc
    case Scan =>
      if s' != s {
        ScanKeeps(c, s, ch.name);
      }
    case Want(n) => WantKeeps(c, s, n);
    case Opening(n) => OpeningKeeps(c, s, n);
    case Read(n, pos) =>
      if pos == |s.work[n].stmts| {
        EndKeeps(c, s, n, pos);
      } else if !ch.ok {
        RefuseKeeps(c, s, n, pos);
      } else {
        ExecuteKeeps(c, s, n, pos);
      }
    case Unlink(n) => UnlinkKeeps(c, s, n);
    case Probe(n, pos, dest) => ProbeKeeps(c, s, n, pos, dest);
    case Rename(n, pos, dest) => RenameKeeps(c, s, n, pos, dest);
    case Leave(n) => LeaveKeeps(c, s, n);
  }

  // ---------- arrivals, runs ----------

  lemma ArrivalKeeps(c: Config, s: State, name: string, lines: seq<string>, s': State)
    requires c.procs > 0 && Inv(c, s) && Step(c, s, Arrival(name, lines)) == Some(s')
    ensures Inv(c, s')
  {
    hide LocksRight, FilesRight, ReadingRight, LedgerRight, CsvRight, RowsRight;
    ArrivalKeepsCsv(c, s, name, lines, s');
    DbHoldsOnly(s, s');
    StayKeepsLocksDb(s, s');
    ArrivalKeepsFiles(c, s, s');
    QuietForDb(s, s');
    TotalsFrame(c.env, s.hist.arrived, s'.hist.arrived, s.hist.batches);
    ArrivalKeepsRows(s, s');
  }

  lemma ArrivalKeepsFiles(c: Config, s: State, s': State)
    requires FilesRight(c, s) && s'.parsers == s.parsers && s'.work == s.work && s'.dbpc == s.dbpc
    ensures FilesRight(c, s')
  {
    DbStays(c, s);
    FilesUnmovedDb(c, s, s');
  }

  lemma DbStays(c: Config, s: State)
    requires FilesRight(c, s)
    ensures DbFile(s.dbpc).Some? ==> HasFile(s, DbFile(s.dbpc).value)
    ensures s.dbpc.Leave? ==> SqlName(s.dbpc.file)
  {
  }

  lemma ArrivalKeepsRows(s: State, s': State)
    requires RowsRight(s) && s'.parsers == s.parsers
    requires s'.hist.converted == s.hist.converted && s'.hist.appended == s.hist.appended
    ensures RowsRight(s')
  {
  }

  lemma InitParsers(c: Config, i: nat)
    requires c.procs > 0 && i < c.procs
    ensures var s := Init(c);
            ParserOk(c, s, s.parsers[i]) && ClaimRight(c, s, i) && RestsEmpty(s.parsers[i])
            && Outstanding(s.parsers[i]) == multiset{} && Claim(s.parsers[i]) == []
  {
    hide ItemBag, Mine;
    EmptyRows();
  }

  lemma InitShared(c: Config)
    ensures LocksRight(Init(c)) && ReadingRight(Init(c)) && LedgerRight(Init(c))
  {
  }

  lemma InitInv(c: Config)
    requires c.procs > 0
    ensures Inv(c, Init(c))
  {
    hide LocksRight, ReadingRight, LedgerRight, ParserOk, ClaimRight, RestsEmpty, Outstanding, Claim;
    var s := Init(c);
    InitShared(c);
    forall i | 0 <= i < |s.parsers|
      ensures ParserOk(c, s, s.parsers[i]) && ClaimRight(c, s, i) && RestsEmpty(s.parsers[i])
      ensures Outstanding(s.parsers[i]) == multiset{} && Claim(s.parsers[i]) == []
    {
      InitParsers(c, i);
    }
    NoneOutstanding(s.parsers);
    assert WrittenMap(map[]) == map[];
  }

  /** The invariant holds after every run. */
  lemma {:induction false} RunInv(c: Config, es: seq<Event>)
    requires c.procs > 0 && Run(c, es).Some?
    ensures Inv(c, Run(c, es).value)
  {
    hide Inv, ParserStep, DbStep, Init;
    if es == [] {
      InitInv(c);
    } else {
      var s, e := Run(c, es[..|es| - 1]).value, es[|es| - 1];
      var s' := Run(c, es).value;
      RunInv(c, es[..|es| - 1]);
      match e
      case ParserEvent(i, ch) => ParserKeeps(c, s, i, ch, s');
      case DbEvent(ch) => DbKeeps(c, s, ch, s');
      case Arrival(name, lines) => ArrivalKeeps(c, s, name, lines, s');
    }
  }

  lemma ReachableInv(c: Config, s: State)
    requires c.procs > 0 && Reachable(c, s)
    ensures Inv(c, s)
  {
    hide Inv, Run;
    var es :| Run(c, es) == Some(s);
    RunInv(c, es);
  }
}
