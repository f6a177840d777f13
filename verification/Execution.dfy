/** What the database has accepted of the file in hand, and why it never misses a reference. */
module Execution {
  import opened Wrappers
  import opened Rows
  import opened Minutes
  import opened FreshName
  import opened Batch
  import opened Pipeline
  import opened Locks
  import opened Files

  /** The statement's effect is in the database. */
  ghost predicate InEffect(db: Database, stmt: Stmt) {
    match stmt
    case CreateMain(t) => t in db.main
    case CreateCandidates(t) => t in db.candidates
    case InsertMain(t, data) => t in db.main && MainItems(data) <= db.main[t]
    case InsertCandidates(t, data) => t in db.candidates && CandidateItems(data) <= db.candidates[t]
  }

  ghost predicate AllInEffect(db: Database, stmts: seq<Stmt>) {
    forall k :: 0 <= k < |stmts| ==> InEffect(db, stmts[k])
  }

  /** `dest` is the name tried next for `n`: the earlier ones are taken. */
  ghost predicate OnTheWay(err: map<string, seq<Stmt>>, n: string, dest: string) {
    |n| >= 4 && exists k: nat :: dest == Attempt(n, k) && forall j: nat :: j < k ==> Attempt(n, j) in err
  }

  lemma FirstOnTheWay(err: map<string, seq<Stmt>>, n: string)
    requires |n| >= 4
    ensures OnTheWay(err, n, n)
  {
    assert n == Attempt(n, 0);
  }

  lemma NextOnTheWay(err: map<string, seq<Stmt>>, n: string, dest: string)
    requires OnTheWay(err, n, dest) && |dest| >= 4 && dest in err
    ensures OnTheWay(err, n, NextName(dest))
  {
    var k: nat :| dest == Attempt(n, k) && forall j: nat :: j < k ==> Attempt(n, j) in err;
    assert NextName(dest) == Attempt(n, k + 1);
  }

  /** The statements in front of the read position have been accepted; a refused one is behind them. */
  ghost predicate ReadingRight(s: State) {
    match s.dbpc
    case Read(n, pos) => pos <= |Content(s.work, n)| && AllInEffect(s.db, Content(s.work, n)[..pos])
    case Unlink(n) => AllInEffect(s.db, Content(s.work, n))
    case Probe(n, pos, dest) => pos < |Content(s.work, n)| && |dest| >= 4 && OnTheWay(s.err, n, dest)
    case Rename(n, pos, dest) => pos < |Content(s.work, n)| && |dest| >= 4 && OnTheWay(s.err, n, dest) && dest !in s.err
    case _ => true
  }

  lemma StillThere<T>(a: multiset<T>, b: multiset<T>, more: multiset<T>)
    ensures a <= b ==> a <= b + more
    ensures more <= b + more
  {
  }

  /** Accepting a statement puts it into effect and takes nothing out of effect. */
  lemma EffectStays(db: Database, stmt: Stmt, earlier: Stmt)
    ensures InEffect(Apply(db, stmt), stmt)
    ensures InEffect(db, earlier) ==> InEffect(Apply(db, stmt), earlier)
  {
    hide MainItems, CandidateItems;
    match stmt
    case InsertMain(t, data) =>
      StillThere(multiset{}, RowsIn(db.main, t), MainItems(data));
      if earlier.InsertMain? {
        StillThere(MainItems(earlier.data), RowsIn(db.main, t), MainItems(data));
      }
    case InsertCandidates(t, data) =>
      StillThere(multiset{}, RowsIn(db.candidates, t), CandidateItems(data));
      if earlier.InsertCandidates? {
        StillThere(CandidateItems(earlier.data), RowsIn(db.candidates, t), CandidateItems(data));
      }
    case _ =>
  }

  lemma ExecuteKeepsReading(s: State, n: string, pos: nat)
    requires s.dbpc == Read(n, pos) && ReadingRight(s) && HasFile(s, n) && pos < |s.work[n].stmts|
    ensures ReadingRight(ExecuteStep(s, n, pos))
  {
    hide InEffect, Apply;
    var stmts, db' := s.work[n].stmts, Apply(s.db, s.work[n].stmts[pos]);
    var done := stmts[..pos + 1];
    forall k | 0 <= k < |done|
      ensures InEffect(db', done[k])
    {
      EffectStays(s.db, stmts[pos], stmts[k]);
      if k < pos {
        assert stmts[..pos][k] == stmts[k];
      }
    }
  }

  // ---------- what the server can object to ----------

  /** The file in hand is complete: its writer left it before the lock was taken. */
  lemma HandComplete(c: Config, s: State, n: string)
    requires LocksRight(s) && FilesRight(c, s) && Holds(s, Db) == Some(n) && HasFile(s, n)
    ensures SqlName(n) && Complete(c, StemOf(n), Content(s.work, n))
  {
    HolderWrites(s, Db, n);
  }

  lemma GroupReferenced(rows: multiset<Item>, data: Records, x: Item)
    requires MainItems(data) <= rows && x in CandidateItems(data)
    ensures Referenced(rows, IdOf(x))
  {
    hide MainItems, CandidateItems;
    var y := CandidateHasMain(data, x);
    assert y in rows && IdOf(y) == IdOf(x);
  }

  /** When the main INSERT of a group is in effect, the references of its candidate INSERT resolve. */
  lemma InsertResolves(db: Database, t: string, data: Records)
    requires InEffect(db, InsertMain(t, data))
    ensures ForeignKeyHolds(db, InsertCandidates(t, data))
  {
    hide MainItems, CandidateItems, Referenced;
    forall x | x in CandidateItems(data)
      ensures Referenced(RowsIn(db.main, t), IdOf(x))
    {
      GroupReferenced(db.main[t], data, x);
    }
  }

  /**
   * Whenever the database process is about to execute a statement, the foreign key of
   * the candidate table holds for it. If the file begins with a CREATE, which with one
   * table per minute it always does, the tables it needs exist.
   */
  lemma NextStatementRefers(c: Config, s: State, n: string, pos: nat)
    requires LocksRight(s) && FilesRight(c, s) && ReadingRight(s)
    requires s.dbpc == Read(n, pos) && pos < |Content(s.work, n)|
    ensures ForeignKeyHolds(s.db, Content(s.work, n)[pos])
    ensures Content(s.work, n)[0].CreateMain? ==> TablesExist(s.db, Content(s.work, n)[pos])
    ensures !c.oneTable ==> Content(s.work, n)[0].CreateMain?
    ensures !Content(s.work, n)[pos].InsertMain? && !Content(s.work, n)[pos].InsertCandidates? ==>
              TablesExist(s.db, Content(s.work, n)[pos])
  {
    hide LocksRight, MainItems, CandidateItems, GroupOk, Table, ForeignKeyHolds;
    HandComplete(c, s, n);
    var stmts, t := Content(s.work, n), StemOf(n);
    assert StmtOk(c, t, stmts, pos) && StmtOk(c, t, stmts, 0) && StmtOk(c, t, stmts, 1);
    if pos > 0 {
      assert StmtOk(c, t, stmts, pos - 1);
      assert InEffect(s.db, stmts[..pos][pos - 1]);
      assert stmts[..pos][pos - 1] == stmts[pos - 1];
    }
    if pos >= 2 {
      assert InEffect(s.db, stmts[..pos][0]) && InEffect(s.db, stmts[..pos][1]);
      assert stmts[..pos][0] == stmts[0] && stmts[..pos][1] == stmts[1];
    }
    if stmts[pos].InsertCandidates? {
      InsertResolves(s.db, stmts[pos].table, stmts[pos].data);
    } else {
      NoReferences(s.db, stmts[pos]);
    }
  }

  lemma NoReferences(db: Database, stmt: Stmt)
    requires !stmt.InsertCandidates?
    ensures ForeignKeyHolds(db, stmt)
  {
  }

  // ---------- everything executed so far ----------

  /** Everything ever executed is still in effect. */
  ghost predicate EffectsRight(s: State) {
    forall file :: AllInEffect(s.db, Get(s.hist.executed, file))
  }
}
