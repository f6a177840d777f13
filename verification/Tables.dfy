/** What the tables hold over a whole run: exactly the rows that were executed, each in the table of its minute. */
module Tables {
  import opened Wrappers
  import opened Lists
  import opened Decoder
  import opened Rows
  import opened Minutes
  import opened Batch
  import opened WorkList
  import opened Pipeline
  import opened Locks
  import opened Files
  import opened Execution
  import opened RowAccount
  import opened Invariant
  import opened InvariantDb
  import opened Progress

  // ---------- which steps touch the database ----------

  lemma ParserLeavesDatabase(c: Config, s: State, i: nat, ch: Choice, s': State)
    requires c.procs > 0 && i < |s.parsers| && ParserStep(c, s, i, ch) == Some(s')
    ensures s'.db == s.db && s'.hist.executed == s.hist.executed && s'.hist.retired == s.hist.retired
  {
    hide BeginStep, Goto, FinishStep, AcquireStep, CheckStep, OpenStep, WriteStep, ReleaseStep, RemoveStep, RestStep,
      Share, Take, Listing, FileName, AllWellNamed, HasFile, HasLock;
  }

  /** The database process is at a statement of the file in its hand. */
  predicate AtStatement(s: State) {
    s.dbpc.Read? && HasFile(s, s.dbpc.file) && s.dbpc.pos < |s.work[s.dbpc.file].stmts|
  }

  function NextStmt(s: State): Stmt
    requires AtStatement(s)
  {
    s.work[s.dbpc.file].stmts[s.dbpc.pos]
  }

  /** The database changes by accepted statements only, and those are admissible. */
  lemma DbStepEffect(s: State, ch: DbChoice, s': State)
    requires DbStep(s, ch) == Some(s')
    ensures (s'.db == s.db && s'.hist.executed == s.hist.executed)
         || (AtStatement(s) && s' == ExecuteStep(s, s.dbpc.file, s.dbpc.pos) && Admissible(s.db, NextStmt(s)))
  {
    hide Admissible, HasFile, WantStep, ExecuteStep, UnlinkStep, ProbeStep, RenameStep, LeaveStep;
  }

  /** A step leaves the database alone or executes an admissible statement. */
  lemma StepEffect(c: Config, s: State, e: Event, s': State)
    requires c.procs > 0 && Step(c, s, e) == Some(s')
    ensures (s'.db == s.db && s'.hist.executed == s.hist.executed)
         || (AtStatement(s) && s' == ExecuteStep(s, s.dbpc.file, s.dbpc.pos) && Admissible(s.db, NextStmt(s)))
  {
    hide Admissible, ParserStep, DbStep, ExecuteStep, AtStatement;
    match e
    case ParserEvent(i, ch) => ParserLeavesDatabase(c, s, i, ch, s');
    case DbEvent(ch) => DbStepEffect(s, ch, s');
    case Arrival(_, _) =>
  }

  // ---------- nothing goes out of effect ----------

  lemma ExecuteKeepsEffects(s: State)
    requires AtStatement(s) && EffectsRight(s)
    ensures EffectsRight(ExecuteStep(s, s.dbpc.file, s.dbpc.pos))
  {
    hide InEffect, Apply;
    var s', stmt := ExecuteStep(s, s.dbpc.file, s.dbpc.pos), NextStmt(s);
    forall file, k | 0 <= k < |Get(s'.hist.executed, file)|
      ensures InEffect(s'.db, Get(s'.hist.executed, file)[k])
    {
      var before := Get(s.hist.executed, file);
      assert AllInEffect(s.db, before);
      EffectStays(s.db, stmt, if k < |before| then before[k] else stmt);
    }
  }

  lemma StepKeepsEffects(c: Config, s: State, e: Event, s': State)
    requires c.procs > 0 && Step(c, s, e) == Some(s') && EffectsRight(s)
    ensures EffectsRight(s')
  {
    hide AllInEffect, Step, ExecuteStep, Admissible;
    StepEffect(c, s, e, s');
    if s'.hist.executed != s.hist.executed || s'.db != s.db {
      ExecuteKeepsEffects(s);
    }
  }

  // ---------- the tables ----------

  /** The table of an item in this table mode. */
  function TableOf(c: Config, x: Item): string {
    Table(c, GroupOf(x))
  }

  /** Every table holds the executed rows of its kind and its name, each as often as it was executed. */
  ghost predicate TablesRight(c: Config, s: State) {
    forall t, x :: RowsRightIn(c, s, t, x)
  }

  ghost predicate RowsRightIn(c: Config, s: State, t: string, x: Item) {
    var times := if TableOf(c, x) == t then Written(s.hist.executed)[x] else 0;
    && RowsIn(s.db.main, t)[x] == (if x.MainItem? then times else 0)
    && RowsIn(s.db.candidates, t)[x] == (if x.CandidateItem? then times else 0)
  }

  /** All items of a statement are rows of its own table. */
  ghost predicate OwnItems(c: Config, stmt: Stmt) {
    forall x :: x in StmtItems(stmt) ==> (x.MainItem? <==> stmt.InsertMain?) && TableOf(c, x) == stmt.table
  }

  lemma GroupItemsOwn(c: Config, t: string, data: Records)
    requires GroupOk(t, data)
    ensures OwnItems(c, InsertMain(Table(c, t), data)) && OwnItems(c, InsertCandidates(Table(c, t), data))
  {
    hide MainItems, CandidateItems, Minute, Table;
    forall x | x in MainItems(data)
      ensures x.MainItem? && GroupOf(x) == t
    {
      var key := MainSource(data, x);
    }
    forall x | x in CandidateItems(data)
      ensures x.CandidateItem? && GroupOf(x) == t
    {
      var key := CandidateSource(data, x);
    }
  }

  lemma NothingOwn(c: Config, stmt: Stmt)
    requires stmt.CreateMain? || stmt.CreateCandidates?
    ensures OwnItems(c, stmt)
  {
  }

  lemma NextOwn(c: Config, s: State)
    requires LocksRight(s) && FilesRight(c, s) && AtStatement(s)
    ensures OwnItems(c, NextStmt(s))
  {
    hide LocksRight, GroupOk, Table, OwnItems, SqlName;
    var n, pos := s.dbpc.file, s.dbpc.pos;
    HandComplete(c, s, n);
    var stmts, t := s.work[n].stmts, StemOf(n);
    assert StmtOk(c, t, stmts, pos);
    match stmts[pos]
    case InsertMain(_, data) => GroupItemsOwn(c, t, data);
    case InsertCandidates(_, data) =>
      assert StmtOk(c, t, stmts, pos - 1);
      GroupItemsOwn(c, t, data);
    case _ => NothingOwn(c, stmts[pos]);
  }

  /** What a statement adds to the rows of a table. */
  lemma AddedRows(db: Database, stmt: Stmt, t: string)
    ensures RowsIn(Apply(db, stmt).main, t)
         == RowsIn(db.main, t) + if stmt.InsertMain? && stmt.table == t then StmtItems(stmt) else multiset{}
    ensures RowsIn(Apply(db, stmt).candidates, t)
         == RowsIn(db.candidates, t) + if stmt.InsertCandidates? && stmt.table == t then StmtItems(stmt) else multiset{}
  {
    hide MainItems, CandidateItems;
  }

  /** One more statement: its rows join the table of its own, and no other. */
  lemma ApplyRows(c: Config, s: State, stmt: Stmt, s': State, t: string, x: Item)
    requires RowsRightIn(c, s, t, x) && OwnItems(c, stmt)
    requires s'.db == Apply(s.db, stmt) && Written(s'.hist.executed) == Written(s.hist.executed) + StmtItems(stmt)
    ensures RowsRightIn(c, s', t, x)
  {
    hide StmtItems, Written, TableOf, RowsIn, Apply, OwnItems;
    var items, none := StmtItems(stmt), multiset{};
    AddedRows(s.db, stmt, t);
    ItemOwn(c, stmt, x);
    CountJoins(Written(s.hist.executed), items, x);
    CountJoins(RowsIn(s.db.main, t), if stmt.InsertMain? && stmt.table == t then items else none, x);
    CountJoins(RowsIn(s.db.candidates, t), if stmt.InsertCandidates? && stmt.table == t then items else none, x);
  }

  lemma ItemOwn(c: Config, stmt: Stmt, x: Item)
    requires OwnItems(c, stmt)
    ensures StmtItems(stmt)[x] > 0 ==> (if x.MainItem? then stmt.InsertMain? else stmt.InsertCandidates?)
    ensures StmtItems(stmt)[x] > 0 ==> TableOf(c, x) == stmt.table
  {
    hide MainItems, CandidateItems, TableOf;
    assert StmtItems(stmt)[x] > 0 <==> x in StmtItems(stmt);
  }

  lemma CountJoins<T>(a: multiset<T>, b: multiset<T>, x: T)
    ensures (a + b)[x] == a[x] + b[x]
  {
  }

  lemma ExecuteKeepsTables(c: Config, s: State)
    requires LocksRight(s) && FilesRight(c, s) && AtStatement(s) && TablesRight(c, s)
    ensures TablesRight(c, ExecuteStep(s, s.dbpc.file, s.dbpc.pos))
  {
    hide LocksRight, FilesRight, RowsRightIn, OwnItems, Written, Apply, StmtItems;
    var s', stmt := ExecuteStep(s, s.dbpc.file, s.dbpc.pos), NextStmt(s);
    NextOwn(c, s);
    WrittenGrow(s.hist.executed, s.dbpc.file, stmt);
    forall t, x
      ensures RowsRightIn(c, s', t, x)
    {
      assert RowsRightIn(c, s, t, x);
      ApplyRows(c, s, stmt, s', t, x);
    }
  }

  lemma SameTables(c: Config, s: State, s': State)
    requires TablesRight(c, s) && s'.db == s.db && s'.hist.executed == s.hist.executed
    ensures TablesRight(c, s')
  {
    hide Written, TableOf;
    forall t, x
      ensures RowsRightIn(c, s', t, x)
    {
      assert RowsRightIn(c, s, t, x);
    }
  }

  lemma StepKeepsTables(c: Config, s: State, e: Event, s': State)
    requires c.procs > 0 && LocksRight(s) && FilesRight(c, s) && Step(c, s, e) == Some(s') && TablesRight(c, s)
    ensures TablesRight(c, s')
  {
    hide Step, TablesRight, ExecuteStep, Admissible, LocksRight, FilesRight;
    StepEffect(c, s, e, s');
    if s'.hist.executed != s.hist.executed || s'.db != s.db {
      ExecuteKeepsTables(c, s);
    } else {
      SameTables(c, s, s');
    }
  }

  // ---------- columns ----------

  ghost predicate FittingRight(s: State) {
    forall file, k :: 0 <= k < |Get(s.hist.executed, file)| ==> ColumnsFit(Get(s.hist.executed, file)[k])
  }

  lemma StepKeepsFitting(c: Config, s: State, e: Event, s': State)
    requires c.procs > 0 && Step(c, s, e) == Some(s') && FittingRight(s)
    ensures FittingRight(s')
  {
    hide Step, ColumnsFit, TablesExist, ForeignKeyHolds, KeysFresh, Apply;
    StepEffect(c, s, e, s');
    forall file, k | 0 <= k < |Get(s'.hist.executed, file)|
      ensures ColumnsFit(Get(s'.hist.executed, file)[k])
    {
      var before := Get(s.hist.executed, file);
      assert k < |before| ==> ColumnsFit(before[k]);
    }
  }

  // ---------- over a run ----------

  lemma InitTables(c: Config)
    ensures EffectsRight(Init(c)) && TablesRight(c, Init(c)) && FittingRight(Init(c))
  {
    hide TableOf;
    assert WrittenMap(map[]) == map[];
  }

  lemma {:induction false} RunKeepsTables(c: Config, es: seq<Event>)
    requires c.procs > 0 && Run(c, es).Some?
    ensures EffectsRight(Run(c, es).value) && TablesRight(c, Run(c, es).value) && FittingRight(Run(c, es).value)
  {
    hide EffectsRight, TablesRight, FittingRight, Step, Init, Inv;
    if es == [] {
      InitTables(c);
    } else {
      var before, s' := Run(c, es[..|es| - 1]).value, Run(c, es).value;
      RunKeepsTables(c, es[..|es| - 1]);
      RunInv(c, es[..|es| - 1]);
      SafeParts(c, before);
      StepKeepsEffects(c, before, es[|es| - 1], s');
      StepKeepsTables(c, before, es[|es| - 1], s');
      StepKeepsFitting(c, before, es[|es| - 1], s');
    }
  }

  lemma ReachableTables(c: Config, s: State)
    requires c.procs > 0 && Reachable(c, s)
    ensures EffectsRight(s) && TablesRight(c, s) && FittingRight(s)
  {
    hide EffectsRight, TablesRight, FittingRight, Run;
    var es :| Run(c, es) == Some(s);
    RunKeepsTables(c, es);
  }

  /**
   * In every reachable state a table holds a row exactly as often as the row was
   * executed, if it is the table of the row's kind and minute, and else not at all.
   */
  lemma StoredExactly(c: Config, s: State, t: string, x: Item)
    requires c.procs > 0 && Reachable(c, s)
    ensures RowsIn(s.db.main, t)[x]
         == if x.MainItem? && TableOf(c, x) == t then Written(s.hist.executed)[x] else 0
    ensures RowsIn(s.db.candidates, t)[x]
         == if x.CandidateItem? && TableOf(c, x) == t then Written(s.hist.executed)[x] else 0
  {
    hide Reachable, EffectsRight, Written, TableOf;
    ReachableTables(c, s);
    assert RowsRightIn(c, s, t, x);
  }

  /** A statement with a value that does not fit its column is never executed. */
  lemma MisfitNeverExecuted(c: Config, s: State, file: string, k: nat)
    requires c.procs > 0 && Reachable(c, s) && k < |Get(s.hist.executed, file)|
    ensures ColumnsFit(Get(s.hist.executed, file)[k])
  {
    hide Reachable, EffectsRight, TablesRight, ColumnsFit;
    ReachableTables(c, s);
  }
}
