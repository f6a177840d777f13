/** What holds in every state that any interleaving of the processes can reach. */
module Guarantees {
  import opened Wrappers
  import opened Lists
  import opened Bags
  import opened Ordered
  import opened Rows
  import opened Minutes
  import opened Batch
  import opened Delimited
  import opened SqlFile
  import opened Sql
  import opened FreshName
  import opened Pipeline
  import opened Locks
  import opened Files
  import opened Steps
  import opened Execution
  import opened Ledger
  import opened Conversion
  import opened RowAccount
  import opened Invariant
  import opened InvariantDb
  import opened Progress
  import opened Columns
  import opened Tables
  import opened CleanRuns

  /** The invariant, clause by clause. */
  lemma Parts(c: Config, s: State)
    requires c.procs > 0 && Reachable(c, s)
    ensures Inv(c, s) && |s.parsers| == c.procs
    ensures LocksRight(s) && FilesRight(c, s) && ReadingRight(s) && LedgerRight(s)
    ensures CsvRight(c, s) && RowsRight(s) && ConvertedRight(c, s)
  {
    hide LocksRight, FilesRight, ReadingRight, LedgerRight, CsvRight, RowsRight, ConvertedRight, Reachable;
    ReachableInv(c, s);
  }

  // ---------- locks ----------

  /** A lock directory is there exactly while one process, and one only, is in the critical section of its file. */
  lemma MutualExclusion(c: Config, s: State, file: string)
    requires c.procs > 0 && Reachable(c, s)
    ensures LockName(file) in s.work <==> exists a :: IsActor(s, a) && Holds(s, a) == Some(file)
    ensures forall a, b :: IsActor(s, a) && IsActor(s, b) && Holds(s, a) == Some(file) && Holds(s, b) == Some(file) ==> a == b
  {
    hide FilesRight, ReadingRight, LedgerRight, CsvRight, RowsRight, ConvertedRight, Reachable, Inv;
    Parts(c, s);
    if LockName(file) in s.work {
      var b := LockHolder(c, s, file);
    }
    forall a | IsActor(s, a) && Holds(s, a) == Some(file)
      ensures HasLock(s, LockName(file))
    {
    }
  }

  /** Two sql files never share a lock, and no lock directory has the name of an sql file. */
  lemma LockNamesApart(c: Config, s: State, file: string, other: string)
    requires c.procs > 0 && Reachable(c, s) && HasFile(s, file)
    ensures LockName(other) != file
    ensures LockName(file) == LockName(other) <==> file == other
  {
    hide LocksRight, FilesRight, ReadingRight, LedgerRight, CsvRight, RowsRight, ConvertedRight, Reachable, Inv;
    Parts(c, s);
    FileNamesOk(c, s, file);
    LockNameApart(other, file);
    assert LockName(file)[1..] == file && LockName(other)[1..] == other;
  }

  /** A lock directory disappears only by a step of the process that made it. */
  lemma OnlyTheHolderUnlocks(c: Config, s: State, e: Event, s': State, file: string)
    requires c.procs > 0 && Reachable(c, s) && Step(c, s, e) == Some(s')
    requires LockName(file) in s.work && LockName(file) !in s'.work
    ensures Owner(e).Some? && IsActor(s, Owner(e).value) && Holds(s, Owner(e).value) == Some(file)
  {
    hide Reachable, Inv, Step, Holds, Rank;
    Parts(c, s);
    var a := LockHolder(c, s, file);
    if Owner(e) != Some(a) {
      LockSurvives(c, s, e, s', a, file);
    }
  }

  lemma LockSurvives(c: Config, s: State, e: Event, s': State, a: Actor, file: string)
    requires c.procs > 0 && Inv(c, s) && Step(c, s, e) == Some(s')
    requires IsActor(s, a) && Holds(s, a) == Some(file) && Owner(e) != Some(a)
    ensures LockName(file) in s'.work
  {
    hide Inv, Step, Holds, Rank;
    SafeParts(c, s);
    OthersLeaveHolder(c, s, e, s', a);
    StepKeeps(c, s, e, s');
    SafeParts(c, s');
    assert HasLock(s', LockName(file));
  }

  /** Whoever waits for a lock holds none, and the one he waits for can go on. */
  lemma NoDeadlock(c: Config, s: State, a: Actor) returns (b: Actor, e: Event)
    requires c.procs > 0 && Reachable(c, s) && IsActor(s, a) && Blocked(s, a)
    ensures Holds(s, a) == None
    ensures b != a && IsActor(s, b) && Holds(s, b) == Some(match a { case Db => s.dbpc.file case P(i) => FileName(s.parsers[i].pc.t) })
    ensures Owner(e) == Some(b) && Step(c, s, e).Some?
  {
    hide Reachable, Inv, Step;
    Parts(c, s);
    b, e := WaitsForAMover(c, s, a);
  }

  /** And does so for a bounded number of its steps only, whatever the others do in between. */
  lemma EverybodyLeaves(c: Config, s: State, es: seq<Event>, a: Actor) returns (k: nat)
    requires c.procs > 0 && Reachable(c, s) && IsActor(s, a) && Holds(s, a).Some?
    requires RunFrom(c, s, es).Some? && StepsOf(es, a) >= Rank(s, a)
    ensures k <= |es| && RunFrom(c, s, es[..k]).Some?
    ensures var s' := RunFrom(c, s, es[..k]).value; IsActor(s', a) && Holds(s', a) == None
  {
    hide Reachable, Inv, RunFrom, StepsOf, Rank;
    Parts(c, s);
    k := LeavesInTime(c, s, es, a);
  }

  // ---------- files ----------

  /** A statement once appended waits in its file, was executed and is in effect, or is in a file of the error directory. */
  lemma NoStatementIsLost(c: Config, s: State, file: string, k: nat) returns (p: Place)
    requires c.procs > 0 && Reachable(c, s) && k < |Get(s.hist.appended, file)|
    ensures IsAt(s, file, Get(s.hist.appended, file)[k], p)
  {
    hide Reachable, Inv, IsAt, LedgerRight, EffectsRight, TablesRight, FittingRight;
    Parts(c, s);
    ReachableTables(c, s);
    p := NothingLost(s, file, k);
  }

  /** While the database process has a file in its critical section, no step of anybody else changes it. */
  lemma HandIsFrozen(c: Config, s: State, e: Event, s': State, file: string)
    requires c.procs > 0 && Reachable(c, s) && Holds(s, Db) == Some(file)
    requires Owner(e) != Some(Db) && Step(c, s, e) == Some(s')
    ensures Content(s'.work, file) == Content(s.work, file) && s'.dbpc == s.dbpc
  {
    hide Reachable, Inv, ParserStep, LocksRight, DbStep;
    Parts(c, s);
    if e.ParserEvent? {
      HandContent(c, s, e.i, e.choice, s', Db, file);
      ParserFrame(c, s, e.i, e.choice, s');
    }
  }

  /** A file is removed only after all of it has been executed, the whole of it last of all. */
  lemma RemovedMeansExecuted(c: Config, s: State, n: string)
    requires c.procs > 0 && Reachable(c, s) && s.dbpc == Unlink(n)
    ensures HasFile(s, n) && AllInEffect(s.db, s.work[n].stmts)
    ensures Get(s.hist.executed, n) == RetiredExecuted(Get(s.hist.retired, n)) + s.work[n].stmts
    ensures Get(s.hist.appended, n) == RetiredStmts(Get(s.hist.retired, n)) + s.work[n].stmts
  {
    hide Reachable, Inv, AllInEffect, RetiredExecuted, RetiredStmts, LocksRight, SqlName;
    Parts(c, s);
    HandInWork(c, s, n);
    assert Balanced(s, n);
  }

  /** A refused file goes to the first free name and overwrites nothing. */
  lemma MovedToFirstFree(c: Config, s: State, n: string, pos: nat, dest: string) returns (k: nat)
    requires c.procs > 0 && Reachable(c, s) && s.dbpc == Rename(n, pos, dest)
    ensures |n| >= 4 && FirstFree(s.err.Keys, n, k) && dest == Attempt(n, k) && dest !in s.err
  {
    hide Reachable, Inv, LocksRight, FilesRight, LedgerRight;
    Parts(c, s);
    k :| dest == Attempt(n, k) && forall j: nat :: j < k ==> Attempt(n, j) in s.err;
  }

  /** Every sql file no parser has locked: two CREATEs of its own table, then pairs of INSERTs of the same records. */
  lemma FreeFileShape(c: Config, s: State, t: string)
    requires c.procs > 0 && Reachable(c, s) && !c.oneTable
    requires Settled(s, FileName(t))
    ensures var stmts := s.work[FileName(t)].stmts;
            && |stmts| >= 4 && |stmts| % 2 == 0
            && stmts[0] == CreateMain(t) && stmts[1] == CreateCandidates(t)
            && forall k :: 2 <= k < |stmts| ==> InInsertPair(t, stmts, k)
  {
    hide Reachable, Inv, LedgerRight, LocksRight, Complete, InInsertPair;
    Parts(c, s);
    SettledComplete(c, s, FileName(t));
    assert StemOf(FileName(t)) == t;
    ShapePerMinute(c, t, s.work[FileName(t)].stmts);
  }

  /** Nobody has the file locked, or the database process has. */
  ghost predicate Settled(s: State, file: string) {
    HasFile(s, file) && (LockName(file) !in s.work || Holds(s, Db) == Some(file))
  }

  lemma SettledComplete(c: Config, s: State, file: string)
    requires LocksRight(s) && FilesRight(c, s) && Settled(s, file)
    ensures Complete(c, StemOf(file), s.work[file].stmts)
  {
    hide Complete, LocksRight, FilesRight;
    if LockName(file) !in s.work {
      if BeingWritten(s, file) {
        WriterHasLock(s, file);
      }
    } else {
      HolderWrites(s, Db, file);
    }
    FreeFileComplete(c, s, file);
  }

  lemma WriterHasLock(s: State, file: string)
    requires LocksRight(s) && BeingWritten(s, file)
    ensures LockName(file) in s.work
  {
    var j :| 0 <= j < |s.parsers| && Writes(s.parsers[j], file);
    assert Holds(s, P(j)) == Some(file);
  }

  /** The records of a statement print without line ends. */
  ghost predicate StmtOnOneLine(stmt: Stmt) {
    stmt.InsertMain? || stmt.InsertCandidates? ==> RecordsOnOneLine(stmt.data)
  }

  lemma PlacedStmtFits(c: Config, t: string, stmts: seq<Stmt>, k: nat)
    requires Complete(c, t, stmts) && k < |stmts| && StmtOnOneLine(stmts[k])
    requires NL !in Table(c, t)
    ensures FitsALine(stmts[k])
  {
    hide RecordsOnOneLine, Table, MainTexts, CandidateRowTexts, GroupOk, AllLong;
    assert StmtOk(c, t, stmts, k);
    match stmts[k]
    case InsertMain(_, data) =>
      GroupHasRows(t, data);
      Timestamps(t, data);
    case InsertCandidates(_, data) =>
      assert StmtOk(c, t, stmts, k - 1);
      GroupHasRows(t, data);
    case _ =>
  }

  lemma TableOnOneLine(c: Config, t: string, stmts: seq<Stmt>)
    requires Complete(c, t, stmts)
    ensures NL !in Table(c, t)
  {
    hide GroupOk, Table;
    var last := |stmts| - 1;
    assert StmtOk(c, t, stmts, last) && StmtOk(c, t, stmts, last - 1);
    GroupNameOnOneLine(c, t, stmts[last].data);
  }

  lemma {:induction false} AllFitFrom(c: Config, t: string, stmts: seq<Stmt>, k: nat)
    requires Complete(c, t, stmts) && k <= |stmts| && NL !in Table(c, t)
    requires forall i :: 0 <= i < |stmts| ==> StmtOnOneLine(stmts[i])
    ensures AllFit(stmts[k..])
    decreases |stmts| - k
  {
    hide Complete, FitsALine, StmtOnOneLine, Table;
    if k < |stmts| {
      PlacedStmtFits(c, t, stmts, k);
      AllFitFrom(c, t, stmts, k + 1);
      assert stmts[k..][1..] == stmts[k + 1..];
    }
  }

  /** Reading an sql file no parser has locked line by line yields exactly its statements. */
  lemma LinesAreStatements(c: Config, s: State, file: string)
    requires c.procs > 0 && Reachable(c, s) && Settled(s, file)
    requires forall k :: 0 <= k < |s.work[file].stmts| ==> StmtOnOneLine(s.work[file].stmts[k])
    ensures AllFit(s.work[file].stmts)
    ensures Tokens(FileText(s.work[file].stmts), NL) == StmtLines(s.work[file].stmts)
  {
    hide Reachable, Inv, LedgerRight, LocksRight, Complete, StmtOnOneLine, FileText, StmtLines, AllFit, Table;
    Parts(c, s);
    SettledComplete(c, s, file);
    var stmts, t := s.work[file].stmts, StemOf(file);
    TableOnOneLine(c, t, stmts);
    AllFitFrom(c, t, stmts, 0);
    assert stmts[0..] == stmts;
    FileReadBack(stmts);
  }

  /**
   * Whatever is executed next refers only to rows that are there. Its table is there
   * exactly when its own file begins with a CREATE or the CREATE of that table was
   * executed before the file was opened; with one table per minute, always.
   */
  lemma NextRefers(c: Config, s: State)
    requires c.procs > 0 && Reachable(c, s) && AtStatement(s)
    ensures ForeignKeyHolds(s.db, NextStmt(s))
    ensures TablesExist(s.db, NextStmt(s)) <==> TableFound(s)
    ensures !c.oneTable ==> TableFound(s)
  {
    hide Reachable, ForeignKeyHolds, TablesExist, TableFound;
    TableFoundExactly(c, s);
  }

  // ---------- the whole way ----------

  /** Parsers that have nothing left to write. */
  predicate AtRest(s: State) {
    forall i :: 0 <= i < |s.parsers| ==>
      s.parsers[i].pc.Idle? || s.parsers[i].pc.Remove? || s.parsers[i].pc.Dead?
  }

  /** When the parsers are at rest, the sql files have received what all converted batches deserve, each item once. */
  lemma AllWritten(c: Config, s: State)
    requires c.procs > 0 && Reachable(c, s) && AtRest(s)
    ensures BatchesRight(c.env, s.hist.arrived, s.hist.batches)
    ensures Written(s.hist.appended) == BatchTotals(c.env, s.hist.arrived, s.hist.batches)
  {
    hide Reachable, Inv, LedgerRight, LocksRight, FilesRight, ReadingRight, CsvRight, Written, BatchTotals, BatchesRight, ItemBag;
    Parts(c, s);
    EmptyRows();
    assert forall i :: 0 <= i < |s.parsers| ==> RestsEmpty(s.parsers[i]);
    NoneOutstanding(s.parsers);
  }

  /** Once the parsers are back at the head of their loops, the converted files are gone, each converted once. */
  lemma FilesConvertedOnce(c: Config, s: State, name: string)
    requires c.procs > 0 && Reachable(c, s)
    requires forall i :: 0 <= i < |s.parsers| ==> s.parsers[i].pc.Idle? || s.parsers[i].pc.Dead?
    ensures NoDuplicates(Flatten(s.hist.batches))
    ensures name in Flatten(s.hist.batches) <==> name in s.hist.arrived && name !in s.csv
  {
    hide Reachable, Inv, LedgerRight, LocksRight, FilesRight, ReadingRight, RowsRight, ConvertedRight, ClaimRight, Flatten;
    Parts(c, s);
    assert !Claimed(s, name);
  }

  /** Nothing waits in an sql file and nothing was refused. */
  ghost predicate Drained(s: State) {
    (forall file :: !HasFile(s, file)) && s.err == map[]
  }

  lemma {:induction false} NoneMoved(gens: seq<Generation>)
    requires forall k :: 0 <= k < |gens| ==> gens[k].Drained?
    ensures RetiredExecuted(gens) == RetiredStmts(gens)
  {
    if gens != [] {
      NoneMoved(gens[..|gens| - 1]);
    }
  }

  lemma DrainedFile(s: State, file: string)
    requires LedgerRight(s) && Drained(s)
    ensures Get(s.hist.executed, file) == Get(s.hist.appended, file)
  {
    hide RetiredExecuted, RetiredStmts;
    var gens := Get(s.hist.retired, file);
    assert Balanced(s, file) && !HasFile(s, file);
    forall k | 0 <= k < |gens|
      ensures gens[k].Drained?
    {
      assert KeptInError(s, gens[k]);
    }
    NoneMoved(gens);
    assert Content(s.work, file) == [] && InHand(s, file) == [];
  }

  /** Then everything appended was executed. */
  lemma AllExecuted(s: State)
    requires LedgerRight(s) && Drained(s)
    ensures Written(s.hist.executed) == Written(s.hist.appended)
  {
    hide LedgerRight, Written, Drained;
    forall file
      ensures Get(s.hist.executed, file) == Get(s.hist.appended, file)
    {
      DrainedFile(s, file);
    }
    SameLists(s.hist.executed, s.hist.appended);
    SameLists(s.hist.appended, s.hist.executed);
  }

  lemma SameLists(a: map<string, seq<Stmt>>, b: map<string, seq<Stmt>>)
    requires forall file :: Get(a, file) == Get(b, file)
    ensures Written(a) <= Written(b)
  {
    hide ItemsIn;
    NoRows();
    forall file | file in WrittenMap(a)
      ensures WrittenMap(a)[file] <= if file in WrittenMap(b) then WrittenMap(b)[file] else multiset{}
    {
      assert Get(a, file) == Get(b, file);
    }
    TotalMonotone(WrittenMap(a), WrittenMap(b));
  }

  /**
   * From csv files to tables: when the parsers are at rest and the sql files are drained
   * without a refusal, each table holds exactly the rows that the accepted lines of the
   * converted files deserve and whose kind and minute it is for, all columns included.
   */
  lemma TablesMatchFiles(c: Config, s: State, t: string, x: Item)
    requires c.procs > 0 && Reachable(c, s) && AtRest(s) && Drained(s)
    ensures BatchesRight(c.env, s.hist.arrived, s.hist.batches)
    ensures var deserved := BatchTotals(c.env, s.hist.arrived, s.hist.batches)[x];
            && RowsIn(s.db.main, t)[x] == (if x.MainItem? && TableOf(c, x) == t then deserved else 0)
            && RowsIn(s.db.candidates, t)[x] == (if x.CandidateItem? && TableOf(c, x) == t then deserved else 0)
  {
    hide Reachable, Inv, LedgerRight, LocksRight, FilesRight, ReadingRight, CsvRight, RowsRight, Written, BatchTotals,
      BatchesRight, Drained, AtRest, TableOf;
    Parts(c, s);
    AllWritten(c, s);
    AllExecuted(s);
    StoredExactly(c, s, t, x);
  }

  // ---------- columns ----------

  /** Every statement appended to a file so far fits its columns. */
  ghost predicate AppendedFit(s: State) {
    forall file, k :: 0 <= k < |Get(s.hist.appended, file)| ==> ColumnsFit(Get(s.hist.appended, file)[k])
  }

  lemma {:induction false} StatementsFit(stmts: seq<Stmt>)
    ensures ItemsAllFit(ItemsIn(stmts)) <==> forall k :: 0 <= k < |stmts| ==> ColumnsFit(stmts[k])
  {
    hide StmtItems, Fits;
    if stmts == [] {
      NothingFits();
      NoRows();
    } else {
      var last := |stmts| - 1;
      var init := stmts[..last];
      StatementsFit(init);
      FitBoth(ItemsIn(init), StmtItems(stmts[last]));
      assert forall k :: 0 <= k < last ==> init[k] == stmts[k];
    }
  }

  lemma WrittenFit(s: State)
    ensures ItemsAllFit(Written(s.hist.appended)) <==> AppendedFit(s)
  {
    hide Fits, ColumnsFit, ItemsIn;
    if AppendedFit(s) {
      forall x | x in Written(s.hist.appended)
        ensures Fits(x)
      {
        var file := TotalSource(WrittenMap(s.hist.appended), x);
        assert Get(s.hist.appended, file) == s.hist.appended[file];
        StatementsFit(s.hist.appended[file]);
      }
    }
    if ItemsAllFit(Written(s.hist.appended)) {
      forall file
        ensures forall k :: 0 <= k < |Get(s.hist.appended, file)| ==> ColumnsFit(Get(s.hist.appended, file)[k])
      {
        FileFits(s, file);
      }
    }
  }

  lemma FileFits(s: State, file: string)
    requires ItemsAllFit(Written(s.hist.appended))
    ensures forall k :: 0 <= k < |Get(s.hist.appended, file)| ==> ColumnsFit(Get(s.hist.appended, file)[k])
  {
    hide Fits, ColumnsFit, ItemsIn, Total;
    if file in s.hist.appended {
      forall x | x in ItemsIn(s.hist.appended[file])
        ensures Fits(x)
      {
        TotalHolds(WrittenMap(s.hist.appended), file, x);
      }
      StatementsFit(s.hist.appended[file]);
    }
  }

  /** When the parsers are at rest: all they have written fits its columns exactly when all converted files are loadable. */
  lemma LoadableExactly(c: Config, s: State)
    requires c.procs > 0 && Reachable(c, s) && AtRest(s)
    ensures LoadableRun(c.env, s.hist.arrived, s.hist.batches) <==> AppendedFit(s)
  {
    hide Reachable, AtRest, Written, BatchTotals, LoadableRun, AppendedFit, BatchesRight, ItemsAllFit;
    AllWritten(c, s);
    TotalsFit(c.env, s.hist.arrived, s.hist.batches);
    WrittenFit(s);
  }
}
