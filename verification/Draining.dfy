/** In a clean and loadable run nothing but a refusal of the server's own choice keeps an sql file out of the database. */
module Draining {
  import opened Wrappers
  import opened Sequences
  import opened Pipeline
  import opened Locks
  import opened Progress
  import opened Uniqueness
  import opened Tables
  import opened Files
  import opened Rows
  import opened Execution
  import opened Invariant
  import opened InvariantDb
  import opened Creation
  import opened CleanRuns

  lemma ReachableStep(c: Config, s: State, e: Event, s': State)
    requires c.procs > 0 && Reachable(c, s) && Step(c, s, e) == Some(s')
    ensures Reachable(c, s')
  {
    hide Step;
    var es :| Run(c, es) == Some(s);
    assert (es + [e])[..|es|] == es;
    assert Run(c, es + [e]) == Some(s');
  }

  lemma FirstStep(c: Config, s: State, e: Event, s': State, es: seq<Event>)
    requires c.procs > 0 && Step(c, s, e) == Some(s')
    ensures RunFrom(c, s, [e] + es) == RunFrom(c, s', es)
  {
    hide Step;
    assert ([e] + es)[1..] == es;
  }

  predicate OnlyDb(es: seq<Event>) {
    forall i :: 0 <= i < |es| ==> es[i].DbEvent?
  }

  /** The file is gone and unlocked, nothing else has been touched, and `stmts` have been executed. */
  ghost predicate DrainedFrom(s: State, s': State, n: string, stmts: seq<Stmt>) {
    && s'.dbpc.Scan? && s'.work == s.work - {n} - {LockName(n)}
    && s'.err == s.err && s'.parsers == s.parsers && s'.csv == s.csv
    && Get(s'.hist.executed, n) == Get(s.hist.executed, n) + stmts
  }

  lemma Finish(c: Config, s: State, n: string) returns (es: seq<Event>, s': State)
    requires c.procs > 0 && HasFile(s, n) && s.dbpc == Read(n, |s.work[n].stmts|)
    ensures OnlyDb(es) && RunFrom(c, s, es) == Some(s') && DrainedFrom(s, s', n, [])
    ensures s'.db == s.db && s'.hist.executed == s.hist.executed
  {
    hide Get;
    var e := DbEvent(Proceed);
    var s1 := s.(dbpc := Unlink(n));
    var s2 := UnlinkStep(s1, n);
    s' := LeaveStep(s2, n);
    es := [e] + ([e] + ([e] + []));
    assert Step(c, s, e) == Some(s1) && Step(c, s1, e) == Some(s2) && Step(c, s2, e) == Some(s');
    FirstStep(c, s2, e, s', []);
    FirstStep(c, s1, e, s2, [e] + []);
    FirstStep(c, s, e, s1, [e] + ([e] + []));
    RightUnit(Get(s.hist.executed, n));
  }

  lemma ExecuteGrows(s: State, n: string, pos: nat)
    requires HasFile(s, n) && pos < |s.work[n].stmts|
    ensures var s' := ExecuteStep(s, n, pos);
            && s'.work == s.work && s'.err == s.err && s'.parsers == s.parsers && s'.csv == s.csv
            && s'.dbpc == Read(n, pos + 1)
            && s'.hist.arrived == s.hist.arrived && s'.hist.batches == s.hist.batches
            && s'.db == Apply(s.db, s.work[n].stmts[pos])
            && Get(s'.hist.executed, n) == Get(s.hist.executed, n) + [s.work[n].stmts[pos]]
  {
    hide Apply;
  }

  lemma RestFrom(stmts: seq<Stmt>, pos: nat)
    requires pos < |stmts|
    ensures [stmts[pos]] + stmts[pos + 1..] == stmts[pos..]
  {
  }

  /** The tables of a file are there, or it creates them. */
  predicate TablesReady(db: Database, stmts: seq<Stmt>) {
    stmts != [] ==> stmts[0].CreateMain? || (stmts[0].table in db.main && stmts[0].table in db.candidates)
  }

  /** What makes every statement of a run admissible in its turn. */
  ghost predicate Fit(c: Config, s: State) {
    Clean(c, s) && LoadableRun(c.env, s.hist.arrived, s.hist.batches)
  }

  lemma FitStays(c: Config, s: State, s': State)
    requires Fit(c, s) && s'.hist.arrived == s.hist.arrived && s'.hist.batches == s.hist.batches
    ensures Fit(c, s')
  {
    hide CleanRun, LoadableRun;
  }

  lemma TablesStay(db: Database, stmt: Stmt, stmts: seq<Stmt>)
    requires TablesReady(db, stmts)
    ensures TablesReady(Apply(db, stmt), stmts)
  {
    hide MainItems, CandidateItems;
  }

  /** In a file whose tables are ready every statement is admissible in its turn. */
  lemma NextAdmissible(c: Config, s: State)
    requires c.procs > 0 && Reachable(c, s) && Fit(c, s) && AtStatement(s)
    requires TablesReady(s.db, s.work[s.dbpc.file].stmts)
    ensures Admissible(s.db, NextStmt(s))
  {
    hide Reachable, Inv, CleanRun, LoadableRun, ColumnsFit, ForeignKeyHolds, KeysFresh, Before, LocksRight, FilesRight,
      ReadingRight;
    CleanAdmissible(c, s);
    TableFoundExactly(c, s);
    ReachableInv(c, s);
    InvHand(c, s);
    BarePair(c, s, s.dbpc.file);
  }

  /** From any position the rest of the file can be executed. */
  lemma {:induction false} DrainRest(c: Config, s: State, n: string, pos: nat) returns (es: seq<Event>, s': State)
    requires c.procs > 0 && Reachable(c, s) && Fit(c, s)
    requires HasFile(s, n) && s.dbpc == Read(n, pos) && pos <= |s.work[n].stmts| && TablesReady(s.db, s.work[n].stmts)
    ensures OnlyDb(es) && RunFrom(c, s, es) == Some(s') && DrainedFrom(s, s', n, s.work[n].stmts[pos..])
    decreases |s.work[n].stmts| - pos
  {
    hide Reachable, Fit, RunFrom, Admissible, Get, ExecuteStep, Apply, TablesReady;
    var stmts := s.work[n].stmts;
    if pos == |stmts| {
      es, s' := Finish(c, s, n);
      assert stmts[pos..] == [];
    } else {
      var e, s1 := DbEvent(Exec(true)), ExecuteStep(s, n, pos);
      NextAdmissible(c, s);
      assert Step(c, s, e) == Some(s1);
      ReachableStep(c, s, e, s1);
      ExecuteGrows(s, n, pos);
      FitStays(c, s, s1);
      TablesStay(s.db, stmts[pos], stmts);
      var more;
      more, s' := DrainRest(c, s1, n, pos + 1);
      es := [e] + more;
      FirstStep(c, s, e, s1, more);
      RestFrom(stmts, pos);
      Associative(Get(s.hist.executed, n), [stmts[pos]], stmts[pos + 1..]);
    }
  }

  lemma GoesOn(c: Config, s: State, e: Event, s': State)
    requires c.procs > 0 && Reachable(c, s) && Fit(c, s) && Step(c, s, e) == Some(s')
    requires s'.hist == s.hist
    ensures Reachable(c, s') && Fit(c, s')
  {
    hide Reachable, Fit, Step;
    ReachableStep(c, s, e, s');
    FitStays(c, s, s');
  }

  /**
   * With clean and loadable csv files, and in either table mode if the file begins with
   * a CREATE or its tables are there: the database process can at any time take an
   * unlocked sql file into the database, whole and in order, by its own steps alone and
   * with nothing moved to the error directory.
   */
  lemma CanDrain(c: Config, s: State, n: string) returns (es: seq<Event>, s': State)
    requires c.procs > 0 && Reachable(c, s) && Fit(c, s)
    requires s.dbpc.Scan? && HasFile(s, n) && LockName(n) !in s.work && TablesReady(s.db, s.work[n].stmts)
    ensures OnlyDb(es) && RunFrom(c, s, es) == Some(s')
    ensures DrainedFrom(s, s', n, s.work[n].stmts)
  {
    hide Reachable, Fit, RunFrom, Get, TablesReady;
    var e0, e := DbEvent(Entry(n)), DbEvent(Proceed);
    var s1 := s.(dbpc := Want(n));
    var s2 := WantStep(s1, n);
    var s3 := s2.(dbpc := Read(n, 0));
    assert |LockName(n)| == |n| + 1;
    assert Step(c, s, e0) == Some(s1) && Step(c, s1, e) == Some(s2) && Step(c, s2, e) == Some(s3);
    GoesOn(c, s, e0, s1);
    GoesOn(c, s1, e, s2);
    GoesOn(c, s2, e, s3);
    var more;
    more, s' := DrainRest(c, s3, n, 0);
    es := [e0] + ([e] + ([e] + more));
    FirstStep(c, s2, e, s3, more);
    FirstStep(c, s1, e, s2, [e] + more);
    FirstStep(c, s, e0, s1, [e] + ([e] + more));
    assert s.work[n].stmts[0..] == s.work[n].stmts;
    assert s.work[LockName(n) := Lock] - {n} - {LockName(n)} == s.work - {n} - {LockName(n)};
  }
}
