/** When the server has a reason of its own to refuse a statement: never, in a clean and loadable run. */
module CleanRuns {
  import opened Bags
  import opened Decoder
  import opened Rows
  import opened Batch
  import opened Pipeline
  import opened Locks
  import opened Files
  import opened Execution
  import opened Ledger
  import opened Conversion
  import opened RowAccount
  import opened Invariant
  import opened InvariantDb
  import opened Uniqueness
  import opened Columns
  import opened Tables
  import opened Creation

  // ---------- what was executed was appended ----------

  lemma ExecutedPartItems(g: Generation)
    ensures ItemsIn(ExecutedPart(g)) <= ItemsIn(g.stmts)
  {
    hide ItemsIn;
    match g
    case Drained(_) =>
    case Moved(stmts, upTo, _) =>
      if upTo <= |stmts| {
        PrefixItems(stmts, upTo);
      }
  }

  lemma PrefixItems(stmts: seq<Stmt>, n: nat)
    requires n <= |stmts|
    ensures ItemsIn(stmts[..n]) <= ItemsIn(stmts)
  {
    hide ItemsIn;
    assert stmts == stmts[..n] + stmts[n..];
    ItemsInConcat(stmts[..n], stmts[n..]);
  }

  lemma {:induction false} RetiredItems(gens: seq<Generation>)
    ensures ItemsIn(RetiredExecuted(gens)) <= ItemsIn(RetiredStmts(gens))
  {
    hide ItemsIn, ExecutedPart;
    if gens != [] {
      var init, last := gens[..|gens| - 1], gens[|gens| - 1];
      RetiredItems(init);
      ExecutedPartItems(last);
      ItemsInConcat(RetiredExecuted(init), ExecutedPart(last));
      ItemsInConcat(RetiredStmts(init), last.stmts);
      SumMonotone(ItemsIn(RetiredExecuted(init)), ItemsIn(RetiredStmts(init)), ItemsIn(ExecutedPart(last)), ItemsIn(last.stmts));
    }
  }

  lemma InHandItems(s: State, file: string)
    ensures ItemsIn(InHand(s, file)) <= ItemsIn(Content(s.work, file))
  {
    hide ItemsIn;
    var stmts := Content(s.work, file);
    NoRows();
    if InHand(s, file) != [] && InHand(s, file) != stmts {
      PrefixItems(stmts, s.dbpc.pos);
    }
  }

  lemma FileItems(s: State, file: string)
    requires Balanced(s, file)
    ensures ItemsIn(Get(s.hist.executed, file)) <= ItemsIn(Get(s.hist.appended, file))
  {
    hide ItemsIn, RetiredStmts, RetiredExecuted, InHand, Content;
    var gens := Get(s.hist.retired, file);
    RetiredItems(gens);
    InHandItems(s, file);
    ItemsInConcat(RetiredExecuted(gens), InHand(s, file));
    ItemsInConcat(RetiredStmts(gens), Content(s.work, file));
    SumMonotone(ItemsIn(RetiredExecuted(gens)), ItemsIn(RetiredStmts(gens)),
                ItemsIn(InHand(s, file)), ItemsIn(Content(s.work, file)));
  }

  /** No item is executed more often than it was appended. */
  lemma ExecutedAppended(s: State)
    requires LedgerRight(s)
    ensures Written(s.hist.executed) <= Written(s.hist.appended)
  {
    hide ItemsIn, Balanced, ErrorsRight;
    NoRows();
    forall file | file in WrittenMap(s.hist.executed)
      ensures WrittenMap(s.hist.executed)[file]
           <= if file in WrittenMap(s.hist.appended) then WrittenMap(s.hist.appended)[file] else multiset{}
    {
      assert Balanced(s, file);
      FileItems(s, file);
    }
    TotalMonotone(WrittenMap(s.hist.executed), WrittenMap(s.hist.appended));
  }

  /** Nor is it converted less often: what has been executed came, once each, out of the csv files. */
  lemma ExecutedConverted(c: Config, s: State)
    requires c.procs > 0 && Inv(c, s)
    ensures Written(s.hist.executed) <= BatchTotals(c.env, s.hist.arrived, s.hist.batches)
  {
    hide LocksRight, FilesRight, ReadingRight, LedgerRight, CsvRight, Written, BatchTotals, AllOutstanding;
    ExecutedAppended(s);
  }

  /** This covers the statement that is about to be executed. */
  lemma NextConverted(c: Config, s: State)
    requires c.procs > 0 && Inv(c, s) && AtStatement(s)
    ensures BatchesRight(c.env, s.hist.arrived, s.hist.batches)
    ensures Written(s.hist.executed) + StmtItems(NextStmt(s)) <= BatchTotals(c.env, s.hist.arrived, s.hist.batches)
  {
    hide Inv, Written, BatchTotals, Apply, StmtItems, BatchesRight;
    ExecuteKeeps(c, s, s.dbpc.file, s.dbpc.pos);
    InvConverted(c, s);
    ExecutedConverted(c, ExecuteStep(s, s.dbpc.file, s.dbpc.pos));
    WrittenGrow(s.hist.executed, s.dbpc.file, NextStmt(s));
  }

  lemma InvConverted(c: Config, s: State)
    requires c.procs > 0 && Inv(c, s)
    ensures BatchesRight(c.env, s.hist.arrived, s.hist.batches)
    ensures LocksRight(s) && FilesRight(c, s) && ReadingRight(s)
  {
    hide LocksRight, FilesRight, ReadingRight, LedgerRight, CsvRight, RowsRight, BatchesRight;
  }

  // ---------- fresh keys ----------

  /** What makes a run clean, looked at in one of its states. */
  ghost predicate Clean(c: Config, s: State) {
    CleanRun(c.env, s.hist.arrived, s.hist.batches)
  }

  /** The rows a table holds have been executed. */
  lemma RowsExecuted(c: Config, s: State, t: string)
    requires TablesRight(c, s)
    ensures RowsIn(s.db.main, t) <= Written(s.hist.executed)
    ensures RowsIn(s.db.candidates, t) <= Written(s.hist.executed)
  {
    hide Written, TableOf;
    forall x
      ensures RowsIn(s.db.main, t)[x] <= Written(s.hist.executed)[x]
      ensures RowsIn(s.db.candidates, t)[x] <= Written(s.hist.executed)[x]
    {
      assert RowsRightIn(c, s, t, x);
    }
  }

  lemma OwnRowsExecuted(c: Config, s: State, stmt: Stmt)
    requires TablesRight(c, s)
    ensures TableRows(s.db, stmt) <= Written(s.hist.executed)
  {
    hide Written, TablesRight, RowsIn;
    if stmt.InsertMain? || stmt.InsertCandidates? {
      RowsExecuted(c, s, stmt.table);
    }
  }

  lemma PartOfBoth<T>(a: multiset<T>, b: multiset<T>, more: multiset<T>, all: multiset<T>)
    requires a <= b && b + more <= all
    ensures a + more <= all
  {
    forall x
      ensures (a + more)[x] <= all[x]
    {
      assert (b + more)[x] <= all[x];
    }
  }

  /** In a clean run the keys of the next statement are new to its table. */
  lemma CleanKeysFresh(c: Config, s: State)
    requires c.procs > 0 && Reachable(c, s) && Clean(c, s) && AtStatement(s)
    ensures KeysFresh(s.db, NextStmt(s))
  {
    hide Inv, TablesRight, EffectsRight, Written, BatchTotals, StmtItems, KeysUnique, CleanRun, BatchesRight, Reachable,
      TableRows;
    var all, stmt := Written(s.hist.executed), NextStmt(s);
    ReachableInv(c, s);
    NextConverted(c, s);
    ReachableTables(c, s);
    OwnRowsExecuted(c, s, stmt);
    var totals := BatchTotals(c.env, s.hist.arrived, s.hist.batches);
    PartOfBoth(TableRows(s.db, stmt), all, StmtItems(stmt), totals);
    TotalsUnique(c.env, s.hist.arrived, s.hist.batches);
    UniquePart(TableRows(s.db, stmt) + StmtItems(stmt), totals);
  }

  // ---------- columns ----------

  ghost predicate LoadableBatch(env: Environment, arrived: map<string, seq<string>>, names: seq<string>) {
    AllWellNamed(names) && BatchDetections(env, names, arrived).Some? && Loadable(BatchDetections(env, names, arrived).value)
  }

  /** Every converted csv file has readable times, rotations that are numbers and bee ids below 2^15. */
  ghost predicate LoadableRun(env: Environment, arrived: map<string, seq<string>>, batches: seq<seq<string>>) {
    forall b :: 0 <= b < |batches| ==> LoadableBatch(env, arrived, batches[b])
  }

  ghost predicate ItemsAllFit(bag: multiset<Item>) {
    forall x :: x in bag ==> Fits(x)
  }

  lemma FitBoth(a: multiset<Item>, b: multiset<Item>)
    ensures ItemsAllFit(a + b) <==> ItemsAllFit(a) && ItemsAllFit(b)
  {
    hide Fits;
    if ItemsAllFit(a + b) {
      forall x | x in a || x in b
        ensures Fits(x)
      {
        assert x in a + b;
      }
    }
  }

  lemma BatchFits(env: Environment, arrived: map<string, seq<string>>, names: seq<string>)
    requires BatchRight(env, arrived, names)
    ensures AllWellNamed(names)
    ensures ItemsAllFit(BatchItems(env, names, arrived)) <==> LoadableBatch(env, arrived, names)
  {
    hide Fits, AcceptedItems, Loadable, Parsed, BatchDetections;
    BatchParsed(env, names, arrived);
    ItemsFit(BatchDetections(env, names, arrived).value);
  }

  /** All converted items fit their columns exactly when all converted files are loadable. */
  lemma {:induction false} TotalsFit(env: Environment, arrived: map<string, seq<string>>, batches: seq<seq<string>>)
    requires BatchesRight(env, arrived, batches)
    ensures ItemsAllFit(BatchTotals(env, arrived, batches)) <==> LoadableRun(env, arrived, batches)
  {
    hide ItemsAllFit, BatchRight, BatchItems, LoadableBatch;
    if batches == [] {
      NothingFits();
    } else {
      var init, last := batches[..|batches| - 1], batches[|batches| - 1];
      InitRight(env, arrived, batches);
      TotalsFit(env, arrived, init);
      BatchFits(env, arrived, last);
      FitBoth(BatchTotals(env, arrived, init), BatchItems(env, last, arrived));
      LoadableInit(env, arrived, batches);
    }
  }

  lemma LoadableInit(env: Environment, arrived: map<string, seq<string>>, batches: seq<seq<string>>)
    requires batches != []
    ensures LoadableRun(env, arrived, batches) <==>
            LoadableRun(env, arrived, batches[..|batches| - 1]) && LoadableBatch(env, arrived, batches[|batches| - 1])
  {
    hide LoadableBatch;
    var init := batches[..|batches| - 1];
    forall b | 0 <= b < |init|
      ensures init[b] == batches[b]
    {
    }
  }

  lemma NothingFits()
    ensures ItemsAllFit(multiset{})
  {
  }

  /** In a loadable run the next statement fits its columns. */
  lemma NextFits(c: Config, s: State)
    requires c.procs > 0 && Inv(c, s) && AtStatement(s)
    requires LoadableRun(c.env, s.hist.arrived, s.hist.batches)
    ensures ColumnsFit(NextStmt(s))
  {
    hide Inv, Written, BatchTotals, StmtItems, BatchesRight, LoadableRun, Fits;
    NextConverted(c, s);
    TotalsFit(c.env, s.hist.arrived, s.hist.batches);
    var totals := BatchTotals(c.env, s.hist.arrived, s.hist.batches);
    forall x | x in StmtItems(NextStmt(s))
      ensures x in totals
    {
      assert x in Written(s.hist.executed) + StmtItems(NextStmt(s));
    }
  }

  // ---------- no reason to refuse ----------

  /** Its own file begins with a CREATE, or the CREATE of its table was executed before the file was opened. */
  ghost predicate TableFound(s: State)
    requires AtStatement(s)
  {
    var stmt := NextStmt(s);
    stmt.InsertMain? || stmt.InsertCandidates? ==>
      s.work[s.dbpc.file].stmts[0].CreateMain? || Before(s, s.dbpc.file, CreateFor(stmt))
  }

  lemma TableFoundExactly(c: Config, s: State)
    requires c.procs > 0 && Reachable(c, s) && AtStatement(s)
    ensures TablesExist(s.db, NextStmt(s)) <==> TableFound(s)
    ensures !c.oneTable ==> TableFound(s)
    ensures ForeignKeyHolds(s.db, NextStmt(s))
  {
    hide Inv, Reachable, ForeignKeyHolds, LocksRight, FilesRight, ReadingRight, Before;
    ReachableInv(c, s);
    InvHand(c, s);
    NextStatementRefers(c, s, s.dbpc.file, s.dbpc.pos);
    if NextStmt(s).InsertMain? || NextStmt(s).InsertCandidates? {
      InsertFindsTable(c, s);
    }
  }

  /**
   * In a clean run the server's demands on the next statement are met exactly when its
   * table is found and its values fit their columns. The table is always found with one
   * table per minute, and the values always fit when the csv files are loadable.
   */
  lemma CleanAdmissible(c: Config, s: State)
    requires c.procs > 0 && Reachable(c, s) && Clean(c, s) && AtStatement(s)
    ensures Admissible(s.db, NextStmt(s)) <==> TableFound(s) && ColumnsFit(NextStmt(s))
    ensures !c.oneTable ==> TableFound(s)
    ensures LoadableRun(c.env, s.hist.arrived, s.hist.batches) ==> ColumnsFit(NextStmt(s))
  {
    hide Inv, KeysFresh, ForeignKeyHolds, TablesExist, ColumnsFit, TableFound, Clean, Reachable, LoadableRun, BatchesRight;
    CleanKeysFresh(c, s);
    TableFoundExactly(c, s);
    ReachableInv(c, s);
    if LoadableRun(c.env, s.hist.arrived, s.hist.batches) {
      NextFits(c, s);
    }
  }
}
