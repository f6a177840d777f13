/** What the sql files look like whenever somebody else may see them. */
module Files {
  import opened Wrappers
  import opened Minutes
  import opened Batch
  import opened Pipeline
  import opened Locks

  /** Statement `k` of the file of group `t` fits its place and its predecessor. */
  ghost predicate StmtOk(c: Config, t: string, stmts: seq<Stmt>, k: nat)
    requires k < |stmts|
  {
    stmts[k].table == Table(c, t)
    && match stmts[k]
       case CreateMain(_) => k % 2 == 0 && (c.oneTable || k == 0)
       case CreateCandidates(_) => k % 2 == 1 && stmts[k - 1].CreateMain?
       case InsertMain(_, data) => k % 2 == 0 && (c.oneTable || k >= 2) && GroupOk(t, data)
       case InsertCandidates(_, data) => k % 2 == 1 && stmts[k - 1] == InsertMain(stmts[k].table, data)
  }

  /**
   * The file of group `t` between two critical sections: pairs of statements, the last
   * of them a pair of INSERTs for the same records.
   */
  ghost predicate Complete(c: Config, t: string, stmts: seq<Stmt>) {
    && stmts != [] && |stmts| % 2 == 0
    && stmts[|stmts| - 1].InsertCandidates?
    && forall k :: 0 <= k < |stmts| ==> StmtOk(c, t, stmts, k)
  }

  /** Statement `k` belongs to a pair of INSERTs of the same records into table `t` and its candidate table. */
  predicate InInsertPair(t: string, stmts: seq<Stmt>, k: nat)
    requires 0 < k < |stmts|
  {
    if k % 2 == 0 then stmts[k].InsertMain? && stmts[k].table == t
    else stmts[k].InsertCandidates? && stmts[k].table == t && stmts[k - 1] == InsertMain(t, stmts[k].data)
  }

  /**
   * With one table per minute the shape is exact: the two CREATEs of the file's own
   * table, then one or more pairs of a main and a candidate INSERT of the same records.
   */
  lemma ShapePerMinute(c: Config, t: string, stmts: seq<Stmt>)
    requires !c.oneTable && Complete(c, t, stmts)
    ensures |stmts| >= 4 && |stmts| % 2 == 0
    ensures stmts[0] == CreateMain(t) && stmts[1] == CreateCandidates(t)
    ensures forall k :: 2 <= k < |stmts| ==> InInsertPair(t, stmts, k)
  {
    assert StmtOk(c, t, stmts, 0) && StmtOk(c, t, stmts, 1);
    assert stmts[0] == CreateMain(t) && stmts[1] == CreateCandidates(t);
    assert |stmts| != 2;
    forall k | 2 <= k < |stmts|
      ensures InInsertPair(t, stmts, k)
    {
      assert StmtOk(c, t, stmts, k) && StmtOk(c, t, stmts, k - 1);
    }
  }

  /** A visit of a parser takes a complete or missing file to a complete one. */
  lemma {:induction false} CompleteAppend(c: Config, t: string, stmts: seq<Stmt>, create: bool, data: Records)
    requires stmts == [] || Complete(c, t, stmts)
    requires !c.oneTable ==> create == (stmts == [])
    requires GroupOk(t, data)
    ensures Complete(c, t, stmts + Statements(c, t, create, data))
  {
    hide GroupOk;
    var more := Statements(c, t, create, data);
    var all := stmts + more;
    forall k | 0 <= k < |all|
      ensures StmtOk(c, t, all, k)
    {
      if k < |stmts| {
        assert StmtOk(c, t, stmts, k);
        assert all[k] == stmts[k] && (k > 0 ==> all[k - 1] == stmts[k - 1]);
      } else {
        assert all[k] == more[k - |stmts|] && (k > |stmts| ==> all[k - 1] == more[k - 1 - |stmts|]);
      }
    }
  }

  // ---------- names ----------

  predicate Stem(t: string) {
    t != [] && t[0] == 't'
  }

  function StemOf(file: string): string {
    if |file| >= 4 then file[..|file| - 4] else []
  }

  predicate SqlName(file: string) {
    |file| >= 5 && file[0] == 't' && FileName(StemOf(file)) == file
  }

  lemma StemName(t: string)
    requires Stem(t)
    ensures SqlName(FileName(t)) && StemOf(FileName(t)) == t
  {
    assert FileName(t)[..|t|] == t;
  }

  /** Lock names and sql file names never meet. */
  lemma LockNameApart(file: string, other: string)
    requires SqlName(other)
    ensures LockName(file) != other
  {
  }

  // ---------- the invariant ----------

  ghost predicate TodoOk(todo: map<string, Records>) {
    forall t :: t in todo ==> Stem(t) && GroupOk(t, todo[t])
  }

  /** What a parser may rely on where it stands. */
  ghost predicate ParserOk(c: Config, s: State, p: Parser) {
    TodoOk(p.todo)
    && match p.pc
       case Acquire(t) => t in p.todo
       case Check(t) => t in p.todo
       case Open(t, create) => t in p.todo && (!c.oneTable ==> create == !HasFile(s, FileName(t)))
       case Write(t, queue) => Stem(t) && HasFile(s, FileName(t)) && Complete(c, t, Content(s.work, FileName(t)) + queue)
       case Release(t) => Stem(t)
       case _ => true
  }

  /** A parser has the file open for appending. */
  predicate Writes(p: Parser, file: string) {
    p.pc.Write? && FileName(p.pc.t) == file
  }

  predicate BeingWritten(s: State, file: string) {
    exists i :: 0 <= i < |s.parsers| && Writes(s.parsers[i], file)
  }

  /** The file the database process has in hand. */
  function DbFile(pc: DbPc): Option<string> {
    match pc
    case Want(n) => Some(n)
    case Leave(_) => None
    case _ => DbHolds(pc)
  }

  ghost predicate FilesRight(c: Config, s: State) {
    && (forall file :: HasFile(s, file) ==> SqlName(file))
    && (forall file :: HasFile(s, file) && !BeingWritten(s, file) ==>
          Complete(c, StemOf(file), Content(s.work, file)))
    && (forall i :: 0 <= i < |s.parsers| ==> ParserOk(c, s, s.parsers[i]))
    && (DbFile(s.dbpc).Some? ==> HasFile(s, DbFile(s.dbpc).value))
    && (s.dbpc.Leave? ==> SqlName(s.dbpc.file))
  }

  /** Only the files differ that `changed` names. */
  ghost predicate SameFiles(s: State, s': State, changed: string) {
    forall file :: file != changed ==>
      HasFile(s', file) == HasFile(s, file) && Content(s'.work, file) == Content(s.work, file)
  }

  ghost predicate SameFilesAll(s: State, s': State) {
    forall file :: HasFile(s', file) == HasFile(s, file) && Content(s'.work, file) == Content(s.work, file)
  }

  /** Parser `i` moves without touching a file. */
  lemma FilesUnmoved(c: Config, s: State, s': State, i: nat, p: Parser)
    requires FilesRight(c, s) && i < |s.parsers|
    requires s'.parsers == s.parsers[i := p] && s'.dbpc == s.dbpc && SameFilesAll(s, s')
    requires !s.parsers[i].pc.Write? && !p.pc.Write? && ParserOk(c, s', p)
    ensures FilesRight(c, s')
  {
    hide Complete, GroupOk, TodoOk, SqlName, Content, DbFile;
    forall j | 0 <= j < |s'.parsers|
      ensures ParserOk(c, s', s'.parsers[j])
    {
      assert ParserOk(c, s, s.parsers[j]);
    }
    forall file | BeingWritten(s, file)
      ensures BeingWritten(s', file)
    {
      var j :| 0 <= j < |s.parsers| && Writes(s.parsers[j], file);
      assert Writes(s'.parsers[j], file);
    }
  }

  /** The database process moves without touching a file. */
  lemma FilesUnmovedDb(c: Config, s: State, s': State)
    requires FilesRight(c, s) && s'.parsers == s.parsers && SameFilesAll(s, s')
    requires DbFile(s'.dbpc).Some? ==> HasFile(s', DbFile(s'.dbpc).value)
    requires s'.dbpc.Leave? ==> SqlName(s'.dbpc.file)
    ensures FilesRight(c, s')
  {
    hide Complete, GroupOk, TodoOk, SqlName, Content, DbFile;
    forall j | 0 <= j < |s'.parsers|
      ensures ParserOk(c, s', s'.parsers[j])
    {
      assert ParserOk(c, s, s.parsers[j]);
    }
    forall file | BeingWritten(s, file)
      ensures BeingWritten(s', file)
    {
      var j :| 0 <= j < |s.parsers| && Writes(s.parsers[j], file);
      assert Writes(s'.parsers[j], file);
    }
  }

  /** Whoever is in a critical section is alone with his file. */
  lemma AloneWith(s: State, a: Actor, b: Actor)
    requires LocksRight(s) && IsActor(s, a) && IsActor(s, b) && a != b
    requires Holds(s, a).Some? && Holds(s, b).Some?
    ensures Holds(s, a) != Holds(s, b)
  {
  }

  /** Nobody but the holder of a file writes it. */
  lemma HolderWrites(s: State, a: Actor, file: string)
    requires LocksRight(s) && IsActor(s, a) && Holds(s, a) == Some(file)
    requires a.P? ==> !s.parsers[a.i].pc.Write?
    ensures !BeingWritten(s, file)
  {
    forall j | 0 <= j < |s.parsers|
      ensures !Writes(s.parsers[j], file)
    {
      if P(j) != a && Holds(s, P(j)).Some? {
        AloneWith(s, P(j), a);
      }
    }
  }

  /** A parser in its critical section changes its own file only; the others do not notice. */
  lemma FilesOfOthers(c: Config, s: State, s': State, i: nat, p: Parser, file: string)
    requires LocksRight(s) && FilesRight(c, s) && i < |s.parsers|
    requires s'.parsers == s.parsers[i := p] && s'.dbpc == s.dbpc && SameFiles(s, s', file)
    requires Holds(s, P(i)) == Some(file) && HasFile(s', file) && SqlName(file)
    requires ParserOk(c, s', p)
    requires if p.pc.Write? then p.pc.t + ".sql" == file
             else Complete(c, StemOf(file), Content(s'.work, file))
    ensures FilesRight(c, s')
  {
    hide Complete, GroupOk, TodoOk, SqlName, Content;
    forall j | 0 <= j < |s'.parsers|
      ensures ParserOk(c, s', s'.parsers[j])
    {
      if j != i {
        assert ParserOk(c, s, s.parsers[j]);
        if Holds(s, P(j)).Some? {
          AloneWith(s, P(j), P(i));
        }
      }
    }
    forall other | other != file && BeingWritten(s, other)
      ensures BeingWritten(s', other)
    {
      var j :| 0 <= j < |s.parsers| && Writes(s.parsers[j], other);
      assert Holds(s, P(j)) == Some(other);
      assert Writes(s'.parsers[j], other);
    }
    assert p.pc.Write? ==> Writes(s'.parsers[i], file);
    assert DbFile(s.dbpc).Some? ==> HasFile(s', DbFile(s.dbpc).value);
  }

  /** The database process takes its file away; the others do not notice. */
  lemma FilesRetired(c: Config, s: State, s': State, file: string)
    requires LocksRight(s) && FilesRight(c, s)
    requires Holds(s, Db) == Some(file) && HasFile(s, file)
    requires s'.parsers == s.parsers && s'.dbpc == Leave(file) && SameFiles(s, s', file) && !HasFile(s', file)
    ensures FilesRight(c, s')
  {
    hide Complete, GroupOk, TodoOk, SqlName, Content;
    forall j | 0 <= j < |s'.parsers|
      ensures ParserOk(c, s', s'.parsers[j])
    {
      assert ParserOk(c, s, s.parsers[j]);
      if Holds(s, P(j)).Some? {
        AloneWith(s, P(j), Db);
      }
    }
    forall file | BeingWritten(s, file)
      ensures BeingWritten(s', file)
    {
      var j :| 0 <= j < |s.parsers| && Writes(s.parsers[j], file);
      assert Writes(s'.parsers[j], file);
    }
  }
}
