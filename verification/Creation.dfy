/** Which tables exist: those for which a CREATE was executed; and who writes CREATE into a file. */
module Creation {
  import opened Wrappers
  import opened Rows
  import opened Batch
  import opened FreshName
  import opened Pipeline
  import opened Locks
  import opened Files
  import opened Execution
  import opened Ledger
  import opened Conversion
  import opened RowAccount
  import opened Invariant
  import opened InvariantDb
  import opened Progress
  import opened Tables

  // ---------- tables exist by CREATE only ----------

  ghost predicate ExecutedAt(s: State, stmt: Stmt, file: string, k: nat) {
    k < |Get(s.hist.executed, file)| && Get(s.hist.executed, file)[k] == stmt
  }

  ghost predicate WasExecuted(s: State, stmt: Stmt) {
    exists file, k: nat :: ExecutedAt(s, stmt, file, k)
  }

  ghost predicate CreatedRight(s: State) {
    && (forall t :: t in s.db.main ==> WasExecuted(s, CreateMain(t)))
    && (forall t :: t in s.db.candidates ==> WasExecuted(s, CreateCandidates(t)))
  }

  /** What is executed stays executed. */
  lemma ExecutedStays(s: State, stmt: Stmt)
    requires AtStatement(s)
    ensures var s' := ExecuteStep(s, s.dbpc.file, s.dbpc.pos);
            && WasExecuted(s', NextStmt(s))
            && (WasExecuted(s, stmt) ==> WasExecuted(s', stmt))
  {
    hide Apply;
    var n, s' := s.dbpc.file, ExecuteStep(s, s.dbpc.file, s.dbpc.pos);
    assert ExecutedAt(s', NextStmt(s), n, |Get(s.hist.executed, n)|);
    if WasExecuted(s, stmt) {
      var file, k: nat :| ExecutedAt(s, stmt, file, k);
      assert ExecutedAt(s', stmt, file, k);
    }
  }

  lemma ExecuteKeepsCreated(s: State)
    requires AtStatement(s) && CreatedRight(s) && TablesExist(s.db, NextStmt(s))
    ensures CreatedRight(ExecuteStep(s, s.dbpc.file, s.dbpc.pos))
  {
    hide WasExecuted, MainItems, CandidateItems;
    var s' := ExecuteStep(s, s.dbpc.file, s.dbpc.pos);
    forall t | t in s'.db.main
      ensures WasExecuted(s', CreateMain(t))
    {
      ExecutedStays(s, CreateMain(t));
    }
    forall t | t in s'.db.candidates
      ensures WasExecuted(s', CreateCandidates(t))
    {
      ExecutedStays(s, CreateCandidates(t));
    }
  }

  lemma SameCreated(s: State, s': State)
    requires CreatedRight(s) && s'.db == s.db && s'.hist.executed == s.hist.executed
    ensures CreatedRight(s')
  {
    forall stmt | WasExecuted(s, stmt)
      ensures WasExecuted(s', stmt)
    {
      var file, k: nat :| ExecutedAt(s, stmt, file, k);
      assert ExecutedAt(s', stmt, file, k);
    }
  }

  lemma StepKeepsCreated(c: Config, s: State, e: Event, s': State)
    requires c.procs > 0 && Step(c, s, e) == Some(s') && CreatedRight(s)
    ensures CreatedRight(s')
  {
    hide Step, CreatedRight, ExecuteStep, ForeignKeyHolds, KeysFresh, ColumnsFit;
    StepEffect(c, s, e, s');
    if s'.hist.executed != s.hist.executed || s'.db != s.db {
      ExecuteKeepsCreated(s);
    } else {
      SameCreated(s, s');
    }
  }

  // ---------- CREATEs from before the file in hand ----------

  /** The statement was executed before the file in hand was opened. */
  ghost predicate Before(s: State, n: string, stmt: Stmt) {
    exists file, k: nat :: ExecutedAt(s, stmt, file, k)
                   && (file == n ==> k < |RetiredExecuted(Get(s.hist.retired, n))|)
  }

  /** Behind the start of a file without CREATE, the tables of its first pair were there before it. */
  ghost predicate HandRight(s: State) {
    match s.dbpc
    case Read(n, pos) =>
      pos > 0 && Content(s.work, n) != [] && !Content(s.work, n)[0].CreateMain? ==>
        && Before(s, n, CreateMain(Content(s.work, n)[0].table))
        && (pos >= 2 ==> Before(s, n, CreateCandidates(Content(s.work, n)[0].table)))
    case _ => true
  }

  /** What was executed and is not among the executed statements of the file in hand was so before. */
  lemma ExecutedBefore(s: State, n: string, pos: nat, stmt: Stmt)
    requires Balanced(s, n) && s.dbpc == Read(n, pos) && pos <= |Content(s.work, n)|
    requires WasExecuted(s, stmt) && forall i :: 0 <= i < pos ==> Content(s.work, n)[i] != stmt
    ensures Before(s, n, stmt)
  {
    hide RetiredExecuted, RetiredStmts;
    var file, k: nat :| ExecutedAt(s, stmt, file, k);
    if file == n {
      assert stmt !in InHand(s, n);
      InFirstPart(RetiredExecuted(Get(s.hist.retired, n)), InHand(s, n), k);
    }
  }

  lemma InFirstPart<T>(a: seq<T>, b: seq<T>, k: nat)
    requires k < |a + b| && (a + b)[k] !in b
    ensures k < |a|
  {
  }

  lemma BeforeStays(s: State, n: string, stmt: Stmt)
    requires AtStatement(s) && s.dbpc.file == n && Before(s, n, stmt)
    ensures Before(ExecuteStep(s, n, s.dbpc.pos), n, stmt)
  {
    hide RetiredExecuted, Apply;
    var s' := ExecuteStep(s, n, s.dbpc.pos);
    var file, k: nat :| ExecutedAt(s, stmt, file, k) && (file == n ==> k < |RetiredExecuted(Get(s.hist.retired, n))|);
    assert ExecutedAt(s', stmt, file, k);
  }

  lemma BeforeSame(s: State, s': State, n: string, stmt: Stmt)
    requires s'.hist.executed == s.hist.executed && Get(s'.hist.retired, n) == Get(s.hist.retired, n)
    requires Before(s, n, stmt)
    ensures Before(s', n, stmt)
  {
    hide RetiredExecuted;
    var file, k: nat :| ExecutedAt(s, stmt, file, k) && (file == n ==> k < |RetiredExecuted(Get(s.hist.retired, n))|);
    assert ExecutedAt(s', stmt, file, k);
  }

  /** The first pair of a file that does not begin with a CREATE. */
  lemma BarePair(c: Config, s: State, n: string)
    requires LocksRight(s) && FilesRight(c, s) && Holds(s, Db) == Some(n) && HasFile(s, n)
    ensures var stmts := s.work[n].stmts;
            && |stmts| >= 2 && (forall k :: 0 <= k < |stmts| ==> stmts[k].table == stmts[0].table)
            && (!stmts[0].CreateMain? ==> stmts[0].InsertMain? && stmts[1].InsertCandidates?)
  {
    hide LocksRight, GroupOk, Table, SqlName;
    HandComplete(c, s, n);
    var stmts, t := s.work[n].stmts, StemOf(n);
    assert StmtOk(c, t, stmts, 0) && StmtOk(c, t, stmts, 1);
    forall k | 0 <= k < |stmts|
      ensures stmts[k].table == stmts[0].table
    {
      assert StmtOk(c, t, stmts, k);
    }
  }

  lemma ExecuteKeepsHand(c: Config, s: State)
    requires c.procs > 0 && Inv(c, s) && AtStatement(s) && TablesExist(s.db, NextStmt(s))
    requires HandRight(s) && CreatedRight(s)
    ensures HandRight(ExecuteStep(s, s.dbpc.file, s.dbpc.pos))
  {
    hide LocksRight, FilesRight, ReadingRight, ErrorsRight, CsvRight, RowsRight, ConvertedRight, Apply, WasExecuted, Before,
      RetiredExecuted, RetiredStmts, InHand;
    var n, pos := s.dbpc.file, s.dbpc.pos;
    var stmts, s' := s.work[n].stmts, ExecuteStep(s, n, pos);
    var main, candidates := CreateMain(stmts[0].table), CreateCandidates(stmts[0].table);
    BarePair(c, s, n);
    assert Balanced(s, n);
    if !stmts[0].CreateMain? {
      if pos == 0 {
        ExecutedBefore(s, n, pos, main);
      }
      if pos == 1 {
        ExecutedBefore(s, n, pos, candidates);
      }
      BeforeStays(s, n, main);
      if pos >= 1 {
        BeforeStays(s, n, candidates);
      }
    }
  }

  /** A step that executes nothing and leaves the database process at its file. */
  lemma OtherKeepsHand(s: State, s': State)
    requires HandRight(s) && s'.hist.executed == s.hist.executed && s'.hist.retired == s.hist.retired
    requires s'.dbpc.Read? && s'.dbpc.pos > 0 ==> s'.dbpc == s.dbpc && Content(s'.work, s.dbpc.file) == Content(s.work, s.dbpc.file)
    ensures HandRight(s')
  {
    hide Before;
    if s'.dbpc.Read? && s'.dbpc.pos > 0 {
      var n := s.dbpc.file;
      if Content(s.work, n) != [] {
        var t := Content(s.work, n)[0].table;
        if Before(s, n, CreateMain(t)) {
          BeforeSame(s, s', n, CreateMain(t));
        }
        if Before(s, n, CreateCandidates(t)) {
          BeforeSame(s, s', n, CreateCandidates(t));
        }
      }
    }
  }

  lemma StepKeepsHand(c: Config, s: State, e: Event, s': State)
    requires c.procs > 0 && Inv(c, s) && Step(c, s, e) == Some(s') && HandRight(s) && CreatedRight(s)
    ensures HandRight(s')
  {
    hide Inv, HandRight, CreatedRight, ParserStep, DbStep, ExecuteStep, ForeignKeyHolds, KeysFresh, ColumnsFit, LocksRight;
    SafeParts(c, s);
    match e
    case ParserEvent(i, ch) =>
      ParserFrame(c, s, i, ch, s');
      ParserLeavesDatabase(c, s, i, ch, s');
      if s.dbpc.Read? {
        HandContent(c, s, i, ch, s', Db, s.dbpc.file);
      }
      OtherKeepsHand(s, s');
    case DbEvent(ch) =>
      if s'.dbpc.Read? && s'.dbpc.pos > 0 {
        DbMovesOn(s, ch, s');
        ExecuteKeepsHand(c, s);
      } else {
        NotReading(s');
      }
    case Arrival(_, _) => OtherKeepsHand(s, s');
  }

  lemma NotReading(s: State)
    requires s.dbpc.Read? ==> s.dbpc.pos == 0
    ensures HandRight(s)
  {
  }

  /** Only executing takes the database process forward within a file. */
  lemma DbMovesOn(s: State, ch: DbChoice, s': State)
    requires DbStep(s, ch) == Some(s') && s'.dbpc.Read? && s'.dbpc.pos > 0
    ensures AtStatement(s) && s' == ExecuteStep(s, s.dbpc.file, s.dbpc.pos) && TablesExist(s.db, NextStmt(s))
  {
    hide ForeignKeyHolds, KeysFresh, ColumnsFit, HasFile, Apply, Get, LockName, NextName;
  }

  // ---------- over a run ----------

  lemma InitCreated(c: Config)
    ensures CreatedRight(Init(c)) && HandRight(Init(c))
  {
  }

  lemma {:induction false} RunKeepsCreated(c: Config, es: seq<Event>)
    requires c.procs > 0 && Run(c, es).Some?
    ensures CreatedRight(Run(c, es).value) && HandRight(Run(c, es).value)
  {
    hide CreatedRight, HandRight, Step, Init, Inv;
    if es == [] {
      InitCreated(c);
    } else {
      var before, s' := Run(c, es[..|es| - 1]).value, Run(c, es).value;
      RunKeepsCreated(c, es[..|es| - 1]);
      RunInv(c, es[..|es| - 1]);
      StepKeepsCreated(c, before, es[|es| - 1], s');
      StepKeepsHand(c, before, es[|es| - 1], s');
    }
  }

  lemma ReachableCreated(c: Config, s: State)
    requires c.procs > 0 && Reachable(c, s)
    ensures CreatedRight(s) && HandRight(s)
  {
    hide CreatedRight, HandRight, Run;
    var es :| Run(c, es) == Some(s);
    RunKeepsCreated(c, es);
  }

  /** In every reachable state a table exists exactly when its CREATE has been executed. */
  lemma CreatedExactly(c: Config, s: State, t: string)
    requires c.procs > 0 && Reachable(c, s)
    ensures t in s.db.main <==> WasExecuted(s, CreateMain(t))
    ensures t in s.db.candidates <==> WasExecuted(s, CreateCandidates(t))
  {
    hide Reachable, WasExecuted, TablesRight, EffectsRight;
    ReachableCreated(c, s);
    ReachableTables(c, s);
    if WasExecuted(s, CreateMain(t)) {
      CreateInEffect(s, CreateMain(t));
    }
    if WasExecuted(s, CreateCandidates(t)) {
      CreateInEffect(s, CreateCandidates(t));
    }
  }

  lemma CreateInEffect(s: State, stmt: Stmt)
    requires EffectsRight(s) && WasExecuted(s, stmt)
    ensures InEffect(s.db, stmt)
  {
    hide InEffect;
    var file, k: nat :| ExecutedAt(s, stmt, file, k);
    assert AllInEffect(s.db, Get(s.hist.executed, file));
  }

  /** The CREATE an INSERT needs. */
  function CreateFor(stmt: Stmt): Stmt {
    if stmt.InsertCandidates? then CreateCandidates(stmt.table) else CreateMain(stmt.table)
  }

  /**
   * In either table mode, and in every reachable state: the INSERT about to be executed
   * finds its table exactly when its own file begins with a CREATE, or the CREATE of
   * that table was executed before the file was opened.
   */
  lemma InsertFindsTable(c: Config, s: State)
    requires c.procs > 0 && Reachable(c, s) && AtStatement(s)
    requires NextStmt(s).InsertMain? || NextStmt(s).InsertCandidates?
    ensures TablesExist(s.db, NextStmt(s)) <==>
            s.work[s.dbpc.file].stmts[0].CreateMain? || Before(s, s.dbpc.file, CreateFor(NextStmt(s)))
  {
    hide Reachable, Inv, WasExecuted, Before, LocksRight, FilesRight, ForeignKeyHolds;
    var n, pos, stmt := s.dbpc.file, s.dbpc.pos, NextStmt(s);
    var stmts := s.work[n].stmts;
    ReachableInv(c, s);
    InvHand(c, s);
    ReachableCreated(c, s);
    CreatedExactly(c, s, stmt.table);
    NextStatementRefers(c, s, n, pos);
    BarePair(c, s, n);
    if Before(s, n, CreateFor(stmt)) {
      BeforeWas(s, n, CreateFor(stmt));
    }
    if TablesExist(s.db, stmt) && !stmts[0].CreateMain? && pos <= 1 {
      FirstPair(stmts, pos, CreateFor(stmt));
      ExecutedBefore(s, n, pos, CreateFor(stmt));
    }
  }

  lemma InvHand(c: Config, s: State)
    requires c.procs > 0 && Inv(c, s)
    ensures LocksRight(s) && FilesRight(c, s) && ReadingRight(s)
    ensures s.dbpc.Read? ==> Balanced(s, s.dbpc.file)
  {
    hide LocksRight, FilesRight, ReadingRight, ErrorsRight, CsvRight, RowsRight, ConvertedRight, Balanced;
    if s.dbpc.Read? {
      assert Balanced(s, s.dbpc.file);
    }
  }

  lemma BeforeWas(s: State, n: string, stmt: Stmt)
    requires Before(s, n, stmt)
    ensures WasExecuted(s, stmt)
  {
  }

  lemma FirstPair(stmts: seq<Stmt>, pos: nat, create: Stmt)
    requires |stmts| >= 2 && pos <= 1 && stmts[0].InsertMain? && !create.InsertMain?
    ensures forall i :: 0 <= i < pos ==> stmts[i] != create
  {
  }
}
