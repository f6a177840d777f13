/** What a refused statement leads to: its file ends up in the error directory, whole and under a free name. */
module Refusals {
  import opened Wrappers
  import opened Sequences
  import opened Lists
  import opened Decoder
  import opened Batch
  import opened WorkList
  import opened FreshName
  import opened Pipeline
  import opened Locks
  import opened Files
  import opened Execution
  import opened Ledger
  import opened Conversion
  import opened RowAccount
  import opened Invariant
  import opened InvariantDb
  import opened Progress
  import opened Tables
  import opened Draining

  // ---------- no file stays behind ----------

  /** The database process is about to unlock a file that is gone. */
  ghost predicate LeavesNothing(s: State) {
    s.dbpc.Leave? ==>
      && !HasFile(s, s.dbpc.file)
      && var gens := Get(s.hist.retired, s.dbpc.file); gens != [] && KeptInError(s, gens[|gens| - 1])
  }

  /** A parser does not bring back a file that somebody else has in his critical section. */
  lemma StaysGone(c: Config, s: State, i: nat, ch: Choice, s': State, file: string)
    requires c.procs > 0 && LocksRight(s) && i < |s.parsers| && ParserStep(c, s, i, ch) == Some(s')
    requires Holds(s, Db) == Some(file) && !HasFile(s, file)
    ensures !HasFile(s', file)
  {
    hide LocksRight, Convert, BatchItems, Statements, Share, Take, Listing, FileName, Get, AllWellNamed, Table;
    if ParserHolds(s.parsers[i].pc).Some? {
      AloneWith(s, P(i), Db);
    }
  }

  lemma ReadStays(s: State, ch: DbChoice, s': State)
    requires s.dbpc.Read? && DbStep(s, ch) == Some(s')
    ensures !s'.dbpc.Leave?
  {
    hide Admissible, Apply, Get;
  }

  lemma RetireGone(s: State, file: string, g: Generation)
    ensures var s' := Retire(s, file, g); s'.dbpc == Leave(file) && !HasFile(s', file) && Get(s'.hist.retired, file) != []
  {
  }

  /** Which steps end a critical section of the database process. */
  lemma LeaveComes(s: State, ch: DbChoice, s': State)
    requires DbStep(s, ch) == Some(s') && s'.dbpc.Leave?
    requires DbFile(s.dbpc).Some? ==> HasFile(s, DbFile(s.dbpc).value)
    ensures DbFile(s.dbpc) == Some(s'.dbpc.file) && !HasFile(s', s'.dbpc.file)
    ensures Get(s'.hist.retired, s'.dbpc.file) != []
  {
    hide Admissible, Apply, LeaveStep, ExecuteStep, Retire, Get, LockName;
    if s.dbpc.Read? {
      ReadStays(s, ch, s');
    } else if s.dbpc.Unlink? {
      RetireGone(s, s.dbpc.file, Drained(s.work[s.dbpc.file].stmts));
    } else if s.dbpc.Rename? {
      RetireGone(s, s.dbpc.file, Moved(s.work[s.dbpc.file].stmts, s.dbpc.pos, s.dbpc.dest));
    }
  }

  lemma LastSettled(s: State, file: string)
    requires LedgerRight(s) && Get(s.hist.retired, file) != []
    ensures var gens := Get(s.hist.retired, file); KeptInError(s, gens[|gens| - 1])
  {
    hide Balanced;
    var gens := Get(s.hist.retired, file);
    assert KeptInError(s, gens[|gens| - 1]);
  }

  lemma StepLeavesNothing(c: Config, s: State, e: Event, s': State)
    requires c.procs > 0 && Inv(c, s) && LeavesNothing(s) && Step(c, s, e) == Some(s')
    ensures LeavesNothing(s')
  {
    hide LocksRight, ReadingRight, LedgerRight, CsvRight, RowsRight, ConvertedRight, ParserStep, DbStep, KeptInError, Get;
    StepKeeps(c, s, e, s');
    match e
    case ParserEvent(i, ch) => ParserLeavesNothing(c, s, i, ch, s');
    case DbEvent(ch) =>
      if s'.dbpc.Leave? {
        LeaveComes(s, ch, s');
        LastSettled(s', s'.dbpc.file);
      }
    case Arrival(_, _) =>
      if s'.dbpc.Leave? {
        LastSettled(s', s'.dbpc.file);
      }
  }

  lemma ParserLeavesNothing(c: Config, s: State, i: nat, ch: Choice, s': State)
    requires c.procs > 0 && Inv(c, s) && LeavesNothing(s) && i < |s.parsers| && ParserStep(c, s, i, ch) == Some(s')
    requires LedgerRight(s')
    ensures LeavesNothing(s')
  {
    hide LocksRight, FilesRight, ReadingRight, LedgerRight, CsvRight, RowsRight, ConvertedRight, ParserStep, KeptInError, Get,
      HasFile;
    ParserFrame(c, s, i, ch, s');
    ParserRetires(c, s, i, ch, s');
    if s'.dbpc.Leave? {
      StaysGone(c, s, i, ch, s', s'.dbpc.file);
      LastSettled(s', s'.dbpc.file);
    }
  }

  lemma ParserRetires(c: Config, s: State, i: nat, ch: Choice, s': State)
    requires c.procs > 0 && i < |s.parsers| && ParserStep(c, s, i, ch) == Some(s')
    ensures s'.hist.retired == s.hist.retired
  {
    hide BeginStep, Goto, FinishStep, AcquireStep, CheckStep, OpenStep, WriteStep, ReleaseStep, RemoveStep, RestStep,
      Share, Take, Listing, FileName, AllWellNamed, HasFile, HasLock;
  }

  lemma {:induction false} RunLeavesNothing(c: Config, es: seq<Event>)
    requires c.procs > 0 && Run(c, es).Some?
    ensures LeavesNothing(Run(c, es).value)
  {
    hide Inv, LeavesNothing, Step;
    if es == [] {
      StartsInScan(c);
    } else {
      var s, e := Run(c, es[..|es| - 1]).value, es[|es| - 1];
      RunLeavesNothing(c, es[..|es| - 1]);
      RunInv(c, es[..|es| - 1]);
      StepLeavesNothing(c, s, e, Run(c, es).value);
    }
  }

  lemma StartsInScan(c: Config)
    ensures LeavesNothing(Init(c))
  {
  }

  /**
   * Whenever the database process unlocks a file, the file is gone: all of it was
   * executed, or all of it is in the error directory and some of it was not executed.
   */
  lemma UnlockedMeansGone(c: Config, s: State, n: string)
    requires c.procs > 0 && Reachable(c, s) && s.dbpc == Leave(n)
    ensures !HasFile(s, n)
    ensures var gens := Get(s.hist.retired, n);
            gens != []
            && match gens[|gens| - 1]
               case Drained(_) => true
               case Moved(stmts, upTo, dest) => upTo < |stmts| && dest in s.err && s.err[dest] == stmts
    ensures Get(s.hist.executed, n) == RetiredExecuted(Get(s.hist.retired, n))
    ensures Get(s.hist.appended, n) == RetiredStmts(Get(s.hist.retired, n))
  {
    hide Inv, Run, Step, RetiredExecuted, RetiredStmts;
    ReachableInv(c, s);
    var es :| Run(c, es) == Some(s);
    RunLeavesNothing(c, es);
    BooksAtLeave(c, s, n);
  }

  lemma BooksAtLeave(c: Config, s: State, n: string)
    requires c.procs > 0 && Inv(c, s) && s.dbpc == Leave(n) && !HasFile(s, n)
    ensures Get(s.hist.executed, n) == RetiredExecuted(Get(s.hist.retired, n))
    ensures Get(s.hist.appended, n) == RetiredStmts(Get(s.hist.retired, n))
  {
    hide LocksRight, FilesRight, ReadingRight, ErrorsRight, CsvRight, RowsRight, ConvertedRight, RetiredExecuted, RetiredStmts;
    assert Balanced(s, n);
    RightUnit(RetiredExecuted(Get(s.hist.retired, n)));
    RightUnit(RetiredStmts(Get(s.hist.retired, n)));
  }

  // ---------- a refused file is moved ----------

  /** The file is gone and unlocked, and `err` holds it, whole, under the first free name; the rest is as before. */
  ghost predicate MovedAway(s: State, s': State, n: string, pos: nat, k: nat)
    requires HasFile(s, n) && |n| >= 4
  {
    var stmts, dest := s.work[n].stmts, Attempt(n, k);
    && FirstFree(s.err.Keys, n, k)
    && s'.dbpc.Scan? && s'.work == s.work - {n} - {LockName(n)}
    && s'.err == s.err[dest := stmts]
    && Get(s'.hist.retired, n) == Get(s.hist.retired, n) + [Moved(stmts, pos, dest)]
    && s'.db == s.db && s'.csv == s.csv && s'.parsers == s.parsers
    && s'.hist.executed == s.hist.executed && s'.hist.appended == s.hist.appended
  }

  /** Nothing is left open on the way: the process asks nobody. */
  predicate AllProceed(es: seq<Event>) {
    forall i :: 0 <= i < |es| ==> es[i] == DbEvent(Proceed)
  }

  lemma RenameAndLeave(c: Config, s: State, n: string, pos: nat, k: nat) returns (es: seq<Event>, s': State)
    requires c.procs > 0 && HasFile(s, n) && |n| >= 4 && FirstFree(s.err.Keys, n, k)
    requires s.dbpc == Rename(n, pos, Attempt(n, k))
    ensures AllProceed(es) && RunFrom(c, s, es) == Some(s') && MovedAway(s, s', n, pos, k)
  {
    hide FirstFree, Attempt;
    var e := DbEvent(Proceed);
    var s1 := RenameStep(s, n, pos, Attempt(n, k));
    s' := LeaveStep(s1, n);
    es := [e] + ([e] + []);
    FirstStep(c, s1, e, s', []);
    FirstStep(c, s, e, s1, [e] + []);
  }

  lemma {:induction false} ProbeOn(c: Config, s: State, n: string, pos: nat, j: nat)
    returns (es: seq<Event>, s': State, k: nat)
    requires c.procs > 0 && HasFile(s, n) && |n| >= 4 && s.dbpc == Probe(n, pos, Attempt(n, j))
    requires forall i: nat :: i < j ==> Attempt(n, i) in s.err
    ensures AllProceed(es) && RunFrom(c, s, es) == Some(s') && MovedAway(s, s', n, pos, k)
    decreases |Ahead(s.err, Attempt(n, j))|
  {
    hide RunFrom, Get, LockName, Ahead;
    var e, dest := DbEvent(Proceed), Attempt(n, j);
    var s1 := ProbeStep(s, n, pos, dest);
    var more;
    if dest in s.err {
      AheadShrinks(s.err, dest);
      assert NextName(dest) == Attempt(n, j + 1);
      more, s', k := ProbeOn(c, s1, n, pos, j + 1);
    } else {
      assert FirstFree(s.err.Keys, n, j);
      k := j;
      more, s' := RenameAndLeave(c, s1, n, pos, k);
    }
    es := [e] + more;
    FirstStep(c, s, e, s1, more);
  }

  /**
   * When the server refuses a statement, wherever in its file, the steps of the database
   * process alone, with nothing left open, bring it back to the directory: by then the
   * file is gone and unlocked, and all its statements are in the error directory under
   * the first free name.
   */
  lemma RefusedIsMoved(c: Config, s: State, s1: State) returns (es: seq<Event>, s': State, k: nat)
    requires c.procs > 0 && Reachable(c, s) && AtStatement(s) && Step(c, s, DbEvent(Exec(false))) == Some(s1)
    ensures AllProceed(es) && RunFrom(c, s1, es) == Some(s')
    ensures |s.dbpc.file| >= 4 && MovedAway(s, s', s.dbpc.file, s.dbpc.pos, k)
    ensures Attempt(s.dbpc.file, k) == StemOf(s.dbpc.file) + Repeat("_1", k) + ".sql"
  {
    hide Reachable, Inv, RunFrom, Get, LockName, Attempt, FirstFree;
    var n, pos := s.dbpc.file, s.dbpc.pos;
    InvSafe(c, s);
    HandInWork(c, s, n);
    assert s1 == s.(dbpc := Probe(n, pos, n));
    assert Attempt(n, 0) == n by { FirstAttempt(n); }
    es, s', k := ProbeOn(c, s1, n, pos, 0);
    AttemptForm(StemOf(n), k);
  }

  lemma FirstAttempt(n: string)
    requires |n| >= 4
    ensures Attempt(n, 0) == n
  {
  }

  lemma InvSafe(c: Config, s: State)
    requires c.procs > 0 && Reachable(c, s)
    ensures LocksRight(s) && FilesRight(c, s)
  {
    hide Reachable, LocksRight, FilesRight, ReadingRight, LedgerRight, CsvRight, RowsRight, ConvertedRight;
    ReachableInv(c, s);
  }

  // ---------- what becomes of a file ----------

  /** The database after some accepted statements. */
  ghost function ApplyAll(db: Database, stmts: seq<Stmt>): Database {
    if stmts == [] then db else Apply(ApplyAll(db, stmts[..|stmts| - 1]), stmts[|stmts| - 1])
  }

  /** The statements in front of `upTo` are admissible in their turn. */
  ghost predicate AdmissibleTo(db: Database, stmts: seq<Stmt>, upTo: nat)
    requires upTo <= |stmts|
  {
    forall k :: 0 <= k < upTo ==> Admissible(ApplyAll(db, stmts[..k]), stmts[k])
  }

  /** The server has its way with a statement exactly when it is admissible. */
  ghost predicate StopsAt(db: Database, stmts: seq<Stmt>, upTo: nat)
    requires upTo <= |stmts|
  {
    AdmissibleTo(db, stmts, upTo) && (upTo < |stmts| ==> !Admissible(ApplyAll(db, stmts[..upTo]), stmts[upTo]))
  }

  /** The file is gone and unlocked; its first `upTo` statements were executed, and unless that was all, it was moved. */
  ghost predicate Disposed(s: State, s': State, n: string, upTo: nat, k: nat)
    requires HasFile(s, n) && |n| >= 4 && upTo <= |s.work[n].stmts|
  {
    var stmts := s.work[n].stmts;
    && s'.dbpc.Scan? && s'.work == s.work - {n} - {LockName(n)}
    && s'.csv == s.csv && s'.parsers == s.parsers
    && s'.db == ApplyAll(s.db, stmts[..upTo])
    && Get(s'.hist.executed, n) == Get(s.hist.executed, n) + stmts[..upTo]
    && if upTo == |stmts| then s'.err == s.err
       else FirstFree(s.err.Keys, n, k) && s'.err == s.err[Attempt(n, k) := stmts]
  }

  /** How far `s` has come with a file that `s0` had not begun: the first `pos` statements are executed. */
  ghost predicate Halfway(s0: State, s: State, n: string, pos: nat)
    requires HasFile(s0, n) && pos <= |s0.work[n].stmts|
  {
    var stmts := s0.work[n].stmts;
    && s.dbpc == Read(n, pos) && s.work == s0.work[LockName(n) := Lock]
    && s.csv == s0.csv && s.parsers == s0.parsers && s.err == s0.err
    && s.db == ApplyAll(s0.db, stmts[..pos])
    && Get(s.hist.executed, n) == Get(s0.hist.executed, n) + stmts[..pos]
  }

  lemma OneFurther(c: Config, s0: State, s: State, n: string, pos: nat) returns (s1: State)
    requires c.procs > 0 && HasFile(s0, n) && |n| >= 4 && pos < |s0.work[n].stmts|
    requires Halfway(s0, s, n, pos) && Admissible(s.db, s0.work[n].stmts[pos])
    ensures Step(c, s, DbEvent(Exec(true))) == Some(s1) && Halfway(s0, s1, n, pos + 1)
  {
    hide Admissible, Apply, Get;
    var stmts := s0.work[n].stmts;
    assert |LockName(n)| == |n| + 1;
    assert s.work[n].stmts == stmts;
    s1 := ExecuteStep(s, n, pos);
    ExecuteGrows(s, n, pos);
    Prefix(stmts, pos);
    assert stmts[..pos + 1][..pos] == stmts[..pos];
    Associative(Get(s0.hist.executed, n), stmts[..pos], [stmts[pos]]);
  }

  lemma AtTheEnd(c: Config, s0: State, s: State, n: string, pos: nat) returns (es: seq<Event>, s': State)
    requires c.procs > 0 && HasFile(s0, n) && |n| >= 4 && pos == |s0.work[n].stmts| && Halfway(s0, s, n, pos)
    ensures OnlyDb(es) && RunFrom(c, s, es) == Some(s') && Disposed(s0, s', n, pos, 0)
  {
    hide Get, ApplyAll, RunFrom;
    assert |LockName(n)| == |n| + 1;
    es, s' := Finish(c, s, n);
    assert s0.work[LockName(n) := Lock] - {n} - {LockName(n)} == s0.work - {n} - {LockName(n)};
  }

  /** The statement in hand is refused. */
  lemma Stopped(c: Config, s0: State, s: State, n: string, pos: nat) returns (es: seq<Event>, s': State, k: nat)
    requires c.procs > 0 && HasFile(s0, n) && |n| >= 4 && pos < |s0.work[n].stmts| && Halfway(s0, s, n, pos)
    requires Reachable(c, s)
    ensures OnlyDb(es) && RunFrom(c, s, es) == Some(s') && Disposed(s0, s', n, pos, k)
  {
    hide Get, ApplyAll, RunFrom, Reachable, Attempt, FirstFree;
    var e, s1 := DbEvent(Exec(false)), s.(dbpc := Probe(n, pos, n));
    assert |LockName(n)| == |n| + 1;
    assert Step(c, s, e) == Some(s1);
    var more;
    more, s', k := RefusedIsMoved(c, s, s1);
    es := [e] + more;
    FirstStep(c, s, e, s1, more);
    assert s0.work[LockName(n) := Lock] - {n} - {LockName(n)} == s0.work - {n} - {LockName(n)};
  }

  lemma {:induction false} DisposeRest(c: Config, s0: State, s: State, n: string, pos: nat)
    returns (es: seq<Event>, s': State, upTo: nat, k: nat)
    requires c.procs > 0 && HasFile(s0, n) && |n| >= 4 && pos <= |s0.work[n].stmts|
    requires Halfway(s0, s, n, pos) && Reachable(c, s) && AdmissibleTo(s0.db, s0.work[n].stmts, pos)
    ensures OnlyDb(es) && RunFrom(c, s, es) == Some(s')
    ensures upTo <= |s0.work[n].stmts| && StopsAt(s0.db, s0.work[n].stmts, upTo)
    ensures Disposed(s0, s', n, upTo, k)
    decreases |s0.work[n].stmts| - pos
  {
    hide Admissible, RunFrom, Reachable, Attempt, FirstFree, Disposed, ApplyAll, Get, LockName;
    var stmts := s0.work[n].stmts;
    if pos == |stmts| {
      es, s' := AtTheEnd(c, s0, s, n, pos);
      upTo, k := pos, 0;
    } else if !Admissible(s.db, stmts[pos]) {
      es, s', k := Stopped(c, s0, s, n, pos);
      upTo := pos;
    } else {
      var s1 := OneFurther(c, s0, s, n, pos);
      ReachableStep(c, s, DbEvent(Exec(true)), s1);
      var more;
      more, s', upTo, k := DisposeRest(c, s0, s1, n, pos + 1);
      es := [DbEvent(Exec(true))] + more;
      FirstStep(c, s, DbEvent(Exec(true)), s1, more);
    }
  }

  /**
   * Whatever an unlocked sql file holds and whatever the tables hold, the steps of the
   * database process alone can take it away, with a server that accepts what is
   * admissible: the statements in front of the first inadmissible one are executed in
   * order, and the file is moved exactly when there is such a statement.
   */
  lemma EveryFileDisposed(c: Config, s: State, n: string)
    returns (es: seq<Event>, s': State, upTo: nat, k: nat)
    requires c.procs > 0 && Reachable(c, s) && s.dbpc.Scan? && HasFile(s, n) && LockName(n) !in s.work
    ensures OnlyDb(es) && RunFrom(c, s, es) == Some(s')
    ensures upTo <= |s.work[n].stmts| && StopsAt(s.db, s.work[n].stmts, upTo)
    ensures |n| >= 4 && Disposed(s, s', n, upTo, k)
  {
    hide Reachable, RunFrom, Get, Disposed, StopsAt, SqlName;
    var e0, e := DbEvent(Entry(n)), DbEvent(Proceed);
    var s1 := s.(dbpc := Want(n));
    var s2 := WantStep(s1, n);
    var s3 := s2.(dbpc := Read(n, 0));
    assert |LockName(n)| == |n| + 1;
    assert Step(c, s, e0) == Some(s1) && Step(c, s1, e) == Some(s2) && Step(c, s2, e) == Some(s3);
    ReachableStep(c, s, e0, s1);
    ReachableStep(c, s1, e, s2);
    ReachableStep(c, s2, e, s3);
    InvSafe(c, s1);
    HandInWork(c, s1, n);
    NotBegun(s, s3, n);
    var more;
    more, s', upTo, k := DisposeRest(c, s, s3, n, 0);
    es := [e0] + ([e] + ([e] + more));
    FirstStep(c, s2, e, s3, more);
    FirstStep(c, s1, e, s2, [e] + more);
    FirstStep(c, s, e0, s1, [e] + ([e] + more));
  }

  lemma NotBegun(s: State, s': State, n: string)
    requires HasFile(s, n) && s'.dbpc == Read(n, 0) && s'.work == s.work[LockName(n) := Lock]
    requires s'.csv == s.csv && s'.parsers == s.parsers && s'.err == s.err && s'.db == s.db && s'.hist == s.hist
    ensures Halfway(s, s', n, 0)
  {
    RightUnit(Get(s.hist.executed, n));
  }
}
